# careconnect client core in Dafny

A model of the client-side logic of careconnect. careconnect is a web
application that connects families with home caregivers. The model covers
these parts:

- **The caregiver profile page.** Sections of the profile switch between
  viewing and editing over a stored row (the snapshot) and one shared draft.
  A section is saved with a timestamp and merged back into the snapshot.
  The page also shows completion badges and a "complete your registration"
  banner (`SectionEditor`).
- **The caregiver data hook.** It loads the caregiver's row, creating a
  minimal one if none exists. It reads and writes the two acceptance flags,
  stored as JSON text in the `Declaracao` column. It saves by update or by
  insert (`CaregiverData`, on top of the small JSON reader and writer in
  `DeclarationJson`).
- **The dashboard sections.** Category and registration number, address
  with dependent city options, personal data, location, and terms with
  their banners (`CategorySection`, `AddressSection`,
  `PersonalDataSection`, `LocationSection`, `TermsSection`). Each section
  emits field writes. `Common.ApplyWrites` applies them to the draft in
  order, each as an update of the latest draft. That is an assumption
  about the parent page that wires the sections, which is not part of this
  model.
- **The public registration wizard.** Four steps over a 17-field schema,
  forward and back navigation, and a submit that resets the form
  (`RegistrationWizard`).
- **Home and listing pages:**
  - the testimonial carousel's grouping and paging (`Testimonials`);
  - the caregiver search filter (`CaregiverSearch`);
  - partner logo URLs (`Partners`);
  - the contact page's FAQ and form (`Contact`).
- **The admin side:**
  - the overview counters and the newest-six activity feed (`AdminDashboard`);
  - the role hook (`UserRole`);
  - the login page's redirects and session state (`AdminLogin`).

Backend, authentication and webhook calls are not executed. Their answers
are parameters of the operations that await them. Local storage is a field
of the login page. The clock is a string or integer parameter.

## Model

| member | source | states |
|---|---|---|
| Common.ApplyWrites | src/components/caregiver-dashboard/AddressSection.tsx:101-108 | applying a section's writes in order leaves the draft with exactly its old keys plus the keys written |
| Common.ApplyWritesUntouched | src/components/caregiver-dashboard/AddressSection.tsx:101-108 | a key that no write names keeps its presence and its value |
| Common.ApplyWritesLast | src/components/caregiver-dashboard/AddressSection.tsx:101-108 | the last write to a key decides that key's value |
| Common.EmptyContained | src/app/buscar-cuidadores/page.tsx:91-94 | the empty string occurs in every string, so an empty term matches everything |
| SectionEditor.ApplyInput | src/pages/CadastrarCuidador.tsx:96-106 | an input event changes only the key the control names: a checkbox stores its checked flag, any other control its text |
| SectionEditor.UpdateData | src/pages/CadastrarCuidador.tsx:124-127 | the save payload is the whole draft plus the timestamp column set to the current time, and nothing else |
| SectionEditor.Overlay | src/pages/CadastrarCuidador.tsx:139 | merging the saved payload into the snapshot: every payload key wins, every other key of the snapshot is kept |
| SectionEditor.SavedSnapshotAt | src/pages/CadastrarCuidador.tsx:124-139 | after a successful save each drafted field reads as drafted, the timestamp is the new one, and fields the draft lacks keep their old presence and value |
| SectionEditor.SectionComplete | src/pages/CadastrarCuidador.tsx:183-198 | a section is complete iff it is one of the five known sections and every one of its required fields is truthy; unknown sections are never complete |
| SectionEditor.RegistrationIncomplete | src/pages/CadastrarCuidador.tsx:201-205 | the registration banner shows iff at least one of the five registration fields is falsy |
| SectionEditor.Editor.constructor | src/pages/CadastrarCuidador.tsx:51-52 | after loading, snapshot and draft are both the loaded row, no section is open and nothing is saving |
| SectionEditor.Editor.InputChange | src/pages/CadastrarCuidador.tsx:96-106 | the draft becomes `ApplyInput` of the old draft, and no completion badge changes, since badges read the snapshot |
| SectionEditor.Editor.Edit | src/pages/CadastrarCuidador.tsx:112-114 | opening a section raises its flag only; the draft is left as it is |
| SectionEditor.Editor.Cancel | src/pages/CadastrarCuidador.tsx:165-168 | cancelling any section resets the whole shared draft to the snapshot and lowers that section's flag |
| SectionEditor.Editor.BeginSave | src/pages/CadastrarCuidador.tsx:120-135 | with no save in flight: saving is set and the update request carries the snapshot's id and `UpdateData(draft, now)`; while a save is in flight nothing happens |
| SectionEditor.Editor.CompleteSave | src/pages/CadastrarCuidador.tsx:137-158 | a success merges the payload into the snapshot and closes the section; a failure keeps snapshot and flags; saving ends either way |
| SectionEditor.EditThenCancel | src/pages/CadastrarCuidador.tsx:112-168 | opening and cancelling a section leaves the snapshot unchanged and the draft equal to it |
| SectionEditor.FailedSaveKeepsState | src/pages/CadastrarCuidador.tsx:120-158 | a failed save loses nothing: snapshot, draft and flags are as before the click, and Save is enabled again |
| SectionEditor.CancelDiscardsOtherSection | src/pages/CadastrarCuidador.tsx:165-167 | with two sections open, cancelling one discards the draft edits of the other, which stays open |
| DeclarationJson.LastValue | hooks/useCaregiverData.ts:70-71 | a property read finds a value iff some member has that key |
| DeclarationJson.RoundTrip | hooks/useCaregiverData.ts:62-76 | parsing the text that stringify produces for a flat object of booleans, nulls and escape-free strings gives back the same object |
| DeclarationJson.ParsedValuesEncodable | hooks/useCaregiverData.ts:66-72 | every property of what the reader parses is a scalar the writer writes back: members are never nested and strings never need an escape |
| CaregiverData.ParseDeclaration | hooks/useCaregiverData.ts:62-76 | null or empty text and text that does not parse read as `false` for both flags; otherwise each flag is the parsed property when that is truthy, kept as it is (a string included), and `false` when it is missing or falsy; every result is a value the hook can write back |
| CaregiverData.DeclarationRoundTrip | hooks/useCaregiverData.ts:165-173 | reading back the serialised flags gives each flag through `|| false`, so any flag the hook can hold comes back exactly as it was written |
| CaregiverData.FetchDecision | hooks/useCaregiverData.ts:95-110 | the load stops iff there is an error other than "no row"; it uses the row iff it did not stop and a row came back; otherwise it creates a record |
| CaregiverData.MinimalRecord | hooks/useCaregiverData.ts:112-117 | the created record has exactly email, nome, telefone and updated_at; nome and telefone are the metadata name and phone when present and empty strings otherwise |
| CaregiverData.SavePayload | hooks/useCaregiverData.ts:170-175 | the saved row is the edited row with email, Declaracao and updated_at written over; every other edited key is kept |
| CaregiverData.ChooseWrite | hooks/useCaregiverData.ts:178-193 | the save updates by id iff the loaded row has a truthy id, and inserts otherwise; the payload is sent unchanged |
| CaregiverData.SaveKeepsAcceptances | hooks/useCaregiverData.ts:205-209 | a stored row that kept the Declaracao text that was sent reads back as the flags that were saved, for every flag value the hook can hold |
| CaregiverData.Store.constructor | hooks/useCaregiverData.ts:52-56 | no row yet, loading, not saving, both flags `false` |
| CaregiverData.Store.SetAcceptedTerms | hooks/useCaregiverData.ts:244 | sets the terms flag to the boolean given, and only that flag; the flags stay writable |
| CaregiverData.Store.SetAcceptedDeclaration | hooks/useCaregiverData.ts:245 | sets the declaration flag to the boolean given, and only that flag; the flags stay writable |
| CaregiverData.Store.Fetch | hooks/useCaregiverData.ts:82-146 | without an email nothing is fetched; on a real error nothing changes; a row found is stored and its flags parsed; with no row the minimal record is inserted and stored if the insert succeeds; loading ends in every case; the flags stay writable |
| CaregiverData.Store.Save | hooks/useCaregiverData.ts:152-228 | without an email it fails and changes nothing; otherwise it sends `ChooseWrite` of the payload; a failure keeps row and flags; a success stores the returned row and re-reads its flags, which equal the saved ones when the row kept the Declaracao sent; saving ends |
| CategorySection.CheckCompletion | src/components/caregiver-dashboard/CategorySection.tsx:45-61 | complete iff the cargo is one the select offers and, if the cargo shows a registration input, that number is non-empty |
| CategorySection.CompletionEdges | src/components/caregiver-dashboard/CategorySection.tsx:46-60 | an empty or unrecognised cargo is never complete; cuidador always is |
| CategorySection.RegistrationNumber | src/components/caregiver-dashboard/CategorySection.tsx:212-225 | the summary suffix is non-empty iff the cargo shows an input and its number is non-empty, and then it is that input's label followed by the number |
| CategorySection.CompleteIffNumberShown | src/components/caregiver-dashboard/CategorySection.tsx:212-225 | for a cargo that needs a number, the section is complete exactly when the header shows the number |
| CategorySection.HeaderSummary | src/components/caregiver-dashboard/CategorySection.tsx:80 | the header is the placeholder for an empty cargo, otherwise the cargo followed by its registration suffix |
| CategorySection.CargoChangeKeepsNumbers | src/components/caregiver-dashboard/CategorySection.tsx:135 | changing the cargo sets it and never clears coren, crefito or crm |
| CategorySection.NumberChangeIsLocal | src/components/caregiver-dashboard/CategorySection.tsx:67-69 | typing a number changes only the input's own field |
| AddressSection.CheckCompletion | src/components/caregiver-dashboard/AddressSection.tsx:87-89 | the section is complete iff none of cep, street, city and state is empty |
| AddressSection.BadgeAgreesWithOverview | src/components/caregiver-dashboard/AddressSection.tsx:87-89 | the section badge (all four fields non-empty) agrees with the profile page's "address" progress check |
| AddressSection.CityOptions | src/components/caregiver-dashboard/AddressSection.tsx:81-82 | the city options are the table entry for the state, and empty for a state the table lacks |
| AddressSection.TableStates | src/components/caregiver-dashboard/AddressSection.tsx:34-63 | the city table has entries for São Paulo, Rio de Janeiro and Minas Gerais only |
| AddressSection.TableKeysOffered | src/components/caregiver-dashboard/AddressSection.tsx:25-63 | every state with a city list is offered by the state select and has cities; no state means no options |
| AddressSection.RenderCitySelect | src/components/caregiver-dashboard/AddressSection.tsx:212-216 | the city select is enabled iff editing with a state chosen; the placeholder asks for a state first when none is chosen |
| AddressSection.SelectChange | src/components/caregiver-dashboard/AddressSection.tsx:101-108 | choosing a state emits the state and then an empty city; any other select emits only its own field |
| AddressSection.StateChangeClearsCity | src/components/caregiver-dashboard/AddressSection.tsx:101-108 | after a state change the draft holds the new state and an empty city, and no other key changes |
| AddressSection.CityChangeIsLocal | src/components/caregiver-dashboard/AddressSection.tsx:101-103 | choosing a city changes only the city |
| AddressSection.TextChangeIsLocal | src/components/caregiver-dashboard/AddressSection.tsx:94-96 | a CEP or street input changes only its own field |
| AddressSection.SwitchStateScenario | src/components/caregiver-dashboard/AddressSection.tsx:101-108 | picking a state and city, then switching state, leaves an empty city and an incomplete section |
| PersonalDataSection.CheckCompletion | src/components/caregiver-dashboard/PersonalDataSection.tsx:49-51 | the section is complete iff none of name, email, phone, CPF and birth date is empty |
| PersonalDataSection.CompletionIgnoresAnswers | src/components/caregiver-dashboard/PersonalDataSection.tsx:49-51 | the two yes/no answers never affect completion |
| PersonalDataSection.OnChange | src/components/caregiver-dashboard/PersonalDataSection.tsx:110-178 | the email input emits nothing; every other control emits one write under its own key, a boolean for the selects and the text otherwise |
| PersonalDataSection.Disabled | src/components/caregiver-dashboard/PersonalDataSection.tsx:110-178 | email is always disabled; every other control exactly when not editing |
| PersonalDataSection.EnabledControlsWrite | src/components/caregiver-dashboard/PersonalDataSection.tsx:110-178 | while editing, the disabled controls are exactly those without a change handler, and every enabled control writes under its own key |
| PersonalDataSection.KeysDistinct | src/components/caregiver-dashboard/PersonalDataSection.tsx:110-178 | no two controls write the same key |
| PersonalDataSection.SelectRoundTrip | src/components/caregiver-dashboard/PersonalDataSection.tsx:163-164 | choosing the option a select displays for a boolean emits that same boolean |
| PersonalDataSection.SelectOptions | src/components/caregiver-dashboard/PersonalDataSection.tsx:163-169 | each of the two options is the displayed value of the boolean it emits |
| PersonalDataSection.ChangeIsLocal | src/components/caregiver-dashboard/PersonalDataSection.tsx:110-178 | a change writes its own key and leaves every other draft key as it was |
| LocationSection.Shown | src/components/caregiver-dashboard/LocationSection.tsx:59 | while editing a control shows the draft's value (possibly undefined); otherwise the row's value when truthy, else "" |
| LocationSection.AvailableCities | src/components/caregiver-dashboard/LocationSection.tsx:60 | no selected state, or a state the table lacks, gives no cities; a state in the table gives its entry |
| LocationSection.TableCodes | src/components/caregiver-dashboard/LocationSection.tsx:33-57 | the table is keyed by SP, RJ and MG |
| LocationSection.OfferedStatesHaveCities | src/components/caregiver-dashboard/LocationSection.tsx:33-57 | every state code the select offers has a non-empty city list |
| LocationSection.CityDisabled | src/components/caregiver-dashboard/LocationSection.tsx:103 | the city select is enabled iff editing with a truthy selected state |
| LocationSection.CityChoicesWhenEnabled | src/components/caregiver-dashboard/LocationSection.tsx:60-103 | while editing, a city select with cities to offer is enabled, and an enabled select over an offered state code has cities to offer |
| LocationSection.ViewingIgnoresDraft | src/components/caregiver-dashboard/LocationSection.tsx:59 | outside editing the selected state does not depend on the draft |
| TermsSection.RenderBanners | src/components/caregiver-dashboard/TermsAndDeclarationSection.tsx:97-98 | the success banner shows iff both are accepted; the warning iff editing and not both are accepted |
| TermsSection.BannersExclusive | src/components/caregiver-dashboard/TermsAndDeclarationSection.tsx:97-98 | the two banners never show together, and while editing one of them always shows |
| TermsSection.CheckboxDisabled | src/components/caregiver-dashboard/TermsAndDeclarationSection.tsx:116 | the checkboxes are disabled exactly when not editing |
| TermsSection.CheckboxesAndBanners | src/components/caregiver-dashboard/TermsAndDeclarationSection.tsx:97-116 | while the checkboxes are disabled no warning shows, and while they are enabled exactly one of the two banners shows |
| TermsSection.Coerce | src/components/caregiver-dashboard/TermsAndDeclarationSection.tsx:74-84 | the callbacks forward `Boolean(checked)`: a boolean as is, a string by truthiness |
| TermsSection.CoerceIsTruthiness | src/components/caregiver-dashboard/TermsAndDeclarationSection.tsx:74-84 | `Boolean(checked)` agrees with the truthiness test the pages apply to the same value as a row field |
| TermsSection.IndeterminateAccepts | src/components/caregiver-dashboard/TermsAndDeclarationSection.tsx:74-84 | the checkbox's "indeterminate" state is forwarded as accepted |
| TermsSection.KeyDown | src/components/caregiver-dashboard/TermsAndDeclarationSection.tsx:90-95 | Enter and space open the terms dialog; no other key opens it; an open dialog stays open |
| TermsSection.KeyDownIdempotent | src/components/caregiver-dashboard/TermsAndDeclarationSection.tsx:90-95 | repeating a key press changes nothing more |
| RegistrationWizard.RequiredFields | src/app/cadastrar-cuidador/page.tsx:26-70 | text fields with a minimum length pass iff long enough; fields without a minimum always pass |
| RegistrationWizard.StepOf | src/app/cadastrar-cuidador/page.tsx:102-123 | every field is listed under a step between 1 and 4 |
| RegistrationWizard.ListedUnderOwnStep | src/app/cadastrar-cuidador/page.tsx:102-123 | every entry of a step's list belongs to that step |
| RegistrationWizard.StepsPartitionFields | src/app/cadastrar-cuidador/page.tsx:102-123 | a field is in a step's list iff that step is its own, and the four lists hold 17 entries |
| RegistrationWizard.StepsCoverForm | src/app/cadastrar-cuidador/page.tsx:125-141 | passing the four step checks is the same as passing the whole schema |
| RegistrationWizard.DefaultsInvalid | src/app/cadastrar-cuidador/page.tsx:78-99 | the default values fail the schema and step 1 |
| RegistrationWizard.RenderButtons | src/app/cadastrar-cuidador/page.tsx:556-581 | "Voltar" shows from step 2 on; "Avançar" before step 4 and the submit button on step 4, never both |
| RegistrationWizard.Wizard.constructor | src/app/cadastrar-cuidador/page.tsx:73-99 | the wizard starts on step 1 with the default values |
| RegistrationWizard.Wizard.Edit | src/app/cadastrar-cuidador/page.tsx:78-99 | editing a field changes the values and never the step |
| RegistrationWizard.Wizard.NextStep | src/app/cadastrar-cuidador/page.tsx:125-139 | advances by exactly one iff the current step validates and the step is below 4; otherwise the step is unchanged; the step stays in 1..4 |
| RegistrationWizard.Wizard.Back | src/app/cadastrar-cuidador/page.tsx:168-173 | goes back one step above step 1 and does nothing on step 1 |
| RegistrationWizard.Wizard.Submit | src/app/cadastrar-cuidador/page.tsx:141-166 | posts iff the whole schema passes, posting the current values; an accepted post resets values and step; anything else keeps both |
| RegistrationWizard.NextThenBack | src/app/cadastrar-cuidador/page.tsx:125-173 | a successful next followed by back returns to the same step with the same values |
| Testimonials.ChunksFlatten | src/components/home/Testimonials.tsx:63-69 | the groups laid end to end are the original list, in order |
| Testimonials.ChunksWellCut | src/components/home/Testimonials.tsx:63-69 | every group but the last has exactly `size` items, and the last has 1 to `size` |
| Testimonials.ChunksCount | src/components/home/Testimonials.tsx:63-69 | there are ceil(n / size) groups |
| Testimonials.CreateGroups | src/components/home/Testimonials.tsx:63-69 | the loop builds exactly the cut: the items in order, full groups but the last, ceil(n / size) of them |
| Testimonials.NextIndex | src/components/home/Testimonials.tsx:74-76 | next stays in range, moves up by one, and wraps the last group to the first |
| Testimonials.PrevIndex | src/components/home/Testimonials.tsx:78-80 | previous stays in range, moves down by one, and wraps the first group to the last |
| Testimonials.NextPrevInverse | src/components/home/Testimonials.tsx:74-80 | previous after next, and next after previous, return the original index |
| Testimonials.Carousel.constructor | src/components/home/Testimonials.tsx:17-72 | the six testimonials make two groups of three, and the first group is shown |
| Testimonials.Carousel.Next | src/components/home/Testimonials.tsx:74-76 | moves to `NextIndex` and stays valid |
| Testimonials.Carousel.Prev | src/components/home/Testimonials.tsx:78-80 | moves to `PrevIndex` and stays valid |
| Testimonials.Carousel.GoTo | src/components/home/Testimonials.tsx:173 | a dot shows its own group |
| CaregiverSearch.LowerChar | src/app/buscar-cuidadores/page.tsx:91-94 | ASCII capitals and the Latin-1 capitals `À` to `Þ` other than `×` move up by 32; every other character is kept |
| CaregiverSearch.LowerCharIdempotent | src/app/buscar-cuidadores/page.tsx:91-94 | lower-casing never yields an ASCII capital and a second pass changes nothing |
| CaregiverSearch.Lower | src/app/buscar-cuidadores/page.tsx:91-94 | lower-casing keeps the length and works character by character |
| CaregiverSearch.LowerIdempotent | src/app/buscar-cuidadores/page.tsx:91-94 | lower-casing a lower-cased string changes nothing |
| CaregiverSearch.Filter | src/app/buscar-cuidadores/page.tsx:89-96 | the result is an order-preserving subsequence of the list; a caregiver is in it iff it is in the list and matches; and each matching caregiver appears as often as in the list, so repeated matches are all kept |
| CaregiverSearch.EmptyTermKeepsAll | src/app/buscar-cuidadores/page.tsx:89-96 | an empty term keeps every caregiver in order |
| CaregiverSearch.CaseInsensitive | src/app/buscar-cuidadores/page.tsx:91-94 | a term and its lowercase give the same result |
| CaregiverSearch.Results | src/app/buscar-cuidadores/page.tsx:26-96 | the page shows every caregiver for an empty term, and always a subsequence of its list |
| AdminDashboard.TagsDistinct | src/pages/admin/Dashboard.tsx:46-77 | the three type labels are pairwise different |
| AdminDashboard.Tagged | src/pages/admin/Dashboard.tsx:46-77 | a source without data contributes nothing; otherwise one entry per row, in order, with the source's label, the row's name and timestamp |
| AdminDashboard.GatheredOrigin | src/pages/admin/Dashboard.tsx:45-78 | every gathered entry is a row of one source carrying that source's label |
| AdminDashboard.AtMostNine | src/pages/admin/Dashboard.tsx:41-43 | with each query limited to three rows at most nine entries are gathered |
| AdminDashboard.PushAll | src/pages/admin/Dashboard.tsx:46-56 | a `forEach` appends the source's entries to the list |
| AdminDashboard.SortNewestFirst | src/pages/admin/Dashboard.tsx:80 | the sort leaves the entries newest first and a permutation of what it was given |
| AdminDashboard.NewestSix | src/pages/admin/Dashboard.tsx:80-81 | the feed has min(6, n) entries, newest first, drawn from the gathered ones, and no entry left out is newer than one kept |
| AdminDashboard.Dashboard.constructor | src/pages/admin/Dashboard.tsx:11-17 | the counters start at 0 and the feed empty |
| AdminDashboard.Dashboard.FetchTotals | src/pages/admin/Dashboard.tsx:23-34 | each counter is its count, or 0 when the count is null |
| AdminDashboard.Dashboard.FetchRecent | src/pages/admin/Dashboard.tsx:39-82 | the feed is the up-to-six newest gathered entries, newest first, and no entry left out is newer than one kept |
| UserRole.RoleOf | hooks/useUserRole.tsx:27-31 | admin iff user_role is "admin"; cuidador iff not admin and the type is "cuidador"; cliente otherwise, a missing type included |
| UserRole.AdminIgnoresType | hooks/useUserRole.tsx:27-28 | an admin profile is admin whatever its type |
| UserRole.NonAdminIgnoresUserRole | hooks/useUserRole.tsx:29-31 | below admin, user_role plays no part |
| UserRole.RoleHook.constructor | hooks/useUserRole.tsx:7-8 | the hook starts with no role, loading |
| UserRole.RoleHook.FetchUserRole | hooks/useUserRole.tsx:11-40 | the role is set only when a user is signed in and the profile was read; loading ends in every case |
| UserRole.FreshHookWithoutProfile | hooks/useUserRole.tsx:7-40 | with no user or an error a fresh hook ends with a null role, not loading |
| AdminLogin.PreCheckRedirect | src/pages/admin/Login.tsx:32-38 | no profile means no redirect; a redirect, when chosen, is one of the three dashboards |
| AdminLogin.PostLoginRoute | src/pages/admin/Login.tsx:100-108 | every profile maps to one of the three dashboards or "/" |
| AdminLogin.MappingsAgree | src/pages/admin/Login.tsx:100-108 | the post-login route is the pre-check redirect with "/" as the default, and it is "/" exactly where the pre-check does not redirect |
| AdminLogin.RoutesFollowRole | src/pages/admin/Login.tsx:32-38 | admin goes to /admin, a caregiver to its dashboard, a client to its dashboard only when its type says "cliente", and any other client is not redirected |
| AdminLogin.LoginPage.constructor | src/pages/admin/Login.tsx:10-14 | the page starts checking, not loading, with no redirect, over the stored token |
| AdminLogin.LoginPage.Render | src/pages/admin/Login.tsx:52-66 | the spinner shows iff checking; the form iff not checking and no redirect is chosen; the redirect screen goes to the chosen route |
| AdminLogin.LoginPage.CheckAuthentication | src/pages/admin/Login.tsx:20-46 | without a truthy stored token (none, or an empty one) nothing changes; with one, a failed user lookup removes the token and a signed-in user's recognised profile chooses the redirect; checking ends in every case |
| AdminLogin.LoginPage.Submit | src/pages/admin/Login.tsx:68-119 | a session stores its token and navigates by the profile; an error or no session stores nothing and does not navigate; loading ends in every case |
| AdminLogin.NoTokenShowsForm | src/pages/admin/Login.tsx:19-66 | with no stored token, or an empty one, the first check ends on the form whoever is signed in |
| Partners.StripTrailingSlash | src/components/home/Partners.tsx:29 | removes one trailing slash when there is one, and otherwise returns the text unchanged |
| Partners.StripLeadingSlash | src/components/home/Partners.tsx:29 | removes one leading slash when there is one, and otherwise returns the text unchanged |
| Partners.GetImageUrl | src/components/home/Partners.tsx:28-29 | the image URL is the storage URL followed by the file name with one leading slash removed, so it starts with the storage URL |
| Partners.BaseEndsWithSlash | src/components/home/Partners.tsx:28-29 | over a base ending in "/", joining gives the base followed by the file name with one leading slash removed |
| Partners.LeadingSlashIgnored | src/components/home/Partners.tsx:29 | "/x" and "x" give the same URL |
| Partners.OnlyOneSlashStripped | src/components/home/Partners.tsx:29 | only one leading slash is removed; a second one stays in the URL |
| Partners.LogoUrl | src/components/home/Partners.tsx:123-127 | a null or empty logo gives the placeholder; one starting with "http" is used as is; any other points into the image bucket |
| Partners.RelativeLogoInBucket | src/components/home/Partners.tsx:123-127 | a logo that is neither empty nor absolute yields a URL starting with the storage URL |
| Contact.InitialFaq | src/app/contato/page.tsx:27-68 | the starting list has one item per question, in order, all closed |
| Contact.ToggleFaq | src/app/contato/page.tsx:80-87 | toggling flips item `index` only; every other item and the length are kept; an index outside the list changes nothing |
| Contact.ToggleTwice | src/app/contato/page.tsx:80-87 | toggling the same index twice restores the list |
| Contact.ToggleCommutes | src/app/contato/page.tsx:80-87 | toggling two items gives the same list in either order |
| Contact.ContactPage.constructor | src/app/contato/page.tsx:22-68 | the four inputs start empty and the questions closed |
| Contact.ContactPage.Edit | src/app/contato/page.tsx:175-207 | an input changes its own state only |
| Contact.ContactPage.Submit | src/app/contato/page.tsx:70-215 | a submit attempt is handled iff all four `required` inputs are non-empty and the email passes the email input's format check; a handled one clears name, email, phone and message; any other attempt changes nothing |
| Contact.SubmitTwice | src/app/contato/page.tsx:70-215 | after a handled submit the form is empty, so a second attempt is never handled; a rejected attempt changes nothing |
| Contact.ContactPage.Toggle | src/app/contato/page.tsx:80-87 | a click replaces the list by `ToggleFaq` of it |
| Contact.OpenThenClose | src/app/contato/page.tsx:80-87 | opening and closing a question returns the list to what it was |
| ContactQuestions.PageStartsClosed | src/app/contato/page.tsx:27-68 | the page opens with eight questions, all closed |

## Left out

- JSON beyond the `Declaracao` column: the reader accepts objects whose
  values are `true`, `false`, `null` or strings without escapes, and a lone
  scalar of those kinds. Numbers, nested values, arrays and escapes are
  treated as text `JSON.parse` rejects.
- CaregiverData.ParseDeclaration: because of that reader, an object with
  any member whose value is a number, an array or object, or a string with
  an escape reads as `false` for both flags, even a `true` flag, and even
  when that member is not a flag (`{"accepted_terms":true,"x":1}` gives
  `false`). The source keeps every truthy flag of any parsable JSON text.
  Text made only of strings without escapes, booleans and `null` is read
  as the source reads it.
- Unicode `toLowerCase`: `CaregiverSearch.LowerChar` maps ASCII and
  Latin-1 capitals only. The source's lengths are UTF-16 code units, and
  the model's strings are sequences of code points.
- `Date` parsing and `toLocaleString`: feed timestamps are integers, and the
  save timestamps are opaque strings given as parameters.
- AdminDashboard.SortNewestFirst: stability of `Array.prototype.sort` on
  equal timestamps is not stated. The insertion sort keeps ties in order,
  but no contract says so.
- The email regex of the schema is the parameter `emailOk` of the wizard's
  operations.
- Concurrency: `Promise.all`, overlapping saves and effects that re-run
  when the user changes are modelled as sequential calls.
  `SectionEditor.Editor.CompleteSave` merges into the snapshot captured when
  the save began, which is the current snapshot while the save is in flight.
- The module-level `saveData` at the end of `hooks/useCaregiverData.ts` is
  dead code that refers to hook state outside its scope. It is not modelled.
- Toasts, `console` output, scrolling, the progress bar's width, star
  ratings, icons and the terms text are not modelled. So are the avatar and
  answer texts of the testimonials and the FAQ, and the caregivers' other
  card fields.
- The wiring from a dashboard section's `onInputChange` to the draft lives
  in a parent component that is not part of this model. `Common.ApplyWrites`
  assumes that parent applies each write to the latest draft, as a
  functional `{...prev, [field]: value}` update does. That is an
  assumption, not a fact about the program. If the parent updated from a
  stale draft instead, the second of the two writes a state change makes
  would overwrite the first. The state would then be lost, and
  AddressSection.StateChangeClearsCity would not hold.
- AddressSection.CityOptions: `cidadesPorEstado[selectedEstado]` also
  finds JavaScript's inherited object properties. For a state named like
  one of them, such as `constructor`, the source gets a non-array, and
  rendering the options throws. The model gives no options for any state
  outside the table.
- LocationSection.AvailableCities: the table lookup in the source also finds
  JavaScript's inherited object properties, such as `constructor`. The
  model's table has only the three state codes.
- The MercadoPago payment flow, the static pages and the other presentational
  components are not part of this model.
- The contact form's submit only clears the inputs. Nothing is sent from
  this page. The browser's email format check is the `emailOk` parameter
  of `Contact.ContactPage.Submit`; its rules are not modelled.
