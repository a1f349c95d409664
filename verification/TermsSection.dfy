/** The terms-and-declaration card: two acceptance checkboxes, a link that
    opens the terms dialog, and a warning or a confirmation banner. */
module TermsSection {
  import opened Common

  /** What the two banners show for the current flags. */
  datatype Banners = Banners(warning: bool, success: bool)

  /** `hasRequiredAcceptances` drives the confirmation banner and
      `showWarning` the warning. */
  function RenderBanners(acceptedTerms: bool, acceptedDeclaration: bool, isEditing: bool): (b: Banners)
    ensures b.success <==> acceptedTerms && acceptedDeclaration
    ensures b.warning <==> isEditing && !(acceptedTerms && acceptedDeclaration)
  {
    var hasRequiredAcceptances := acceptedTerms && acceptedDeclaration;
    Banners(isEditing && !hasRequiredAcceptances, hasRequiredAcceptances)
  }

  /** The two banners are never shown together, and while editing exactly one
      of them is. */
  lemma BannersExclusive(acceptedTerms: bool, acceptedDeclaration: bool, isEditing: bool)
    ensures var b := RenderBanners(acceptedTerms, acceptedDeclaration, isEditing);
      !(b.warning && b.success) && (isEditing ==> b.warning || b.success)
  {
  }

  /** Both checkboxes are disabled exactly when the card is not being edited. */
  function CheckboxDisabled(isEditing: bool): (r: bool)
    ensures r <==> !isEditing
  {
    !isEditing
  }

  /** While the checkboxes cannot be changed no warning asks for them, and
      while they can exactly one banner tells whether both are ticked. */
  lemma CheckboxesAndBanners(acceptedTerms: bool, acceptedDeclaration: bool, isEditing: bool)
    ensures var b := RenderBanners(acceptedTerms, acceptedDeclaration, isEditing);
      (CheckboxDisabled(isEditing) ==> !b.warning)
      && (!CheckboxDisabled(isEditing) ==> b.warning != b.success)
  {
    BannersExclusive(acceptedTerms, acceptedDeclaration, isEditing);
  }

  /** The value a checkbox callback receives: a boolean or a string (the
      checkbox reports the string `"indeterminate"` for its third state). */
  datatype CheckedState = Checked(b: bool) | Text(s: string)

  /** `Boolean(checked)`, which the callbacks forward: a boolean as is, a
      string by JavaScript truthiness. */
  function Coerce(c: CheckedState): (r: bool)
    ensures c.Checked? ==> r == c.b
    ensures c.Text? ==> (r <==> c.s != "")
  {
    match c
    case Checked(b) => b
    case Text(s) => s != ""
  }

  /** The same value as a field of a row. */
  function AsValue(c: CheckedState): Value
  {
    match c
    case Checked(b) => Bool(b)
    case Text(s) => Str(s)
  }

  /** `Boolean(checked)` is the truthiness every other truthiness test of
      the pages applies to the same value. */
  lemma CoerceIsTruthiness(c: CheckedState, key: string)
    ensures Coerce(c) <==> Filled(map[key := AsValue(c)], key)
  {
  }

  /** The indeterminate state is forwarded as an acceptance. */
  lemma IndeterminateAccepts()
    ensures Coerce(Text("indeterminate"))
  {
  }

  /** `handleKeyDown` on the terms link: the dialog-open flag after a key. */
  function KeyDown(open: bool, key: string): (r: bool)
    ensures open ==> r
    ensures !open && r ==> key == "Enter" || key == " "
    ensures key == "Enter" || key == " " ==> r
  {
    if key == "Enter" || key == " " then true else open
  }

  /** Repeating a key press changes nothing more. */
  lemma KeyDownIdempotent(open: bool, key: string)
    ensures KeyDown(KeyDown(open, key), key) == KeyDown(open, key)
  {
  }
}
