/** The contact page: a message form that is cleared on submit, and a list
    of frequently asked questions whose answers open and close one by one. */
module Contact {

  /** A question of the list and whether its answer is shown. */
  datatype FaqItem = FaqItem(question: string, isOpen: bool)

  /** The list the page starts with: every question, in order, closed. */
  function InitialFaq(questions: seq<string>): (r: seq<FaqItem>)
    ensures |r| == |questions|
    ensures forall i :: 0 <= i < |r| ==> r[i].question == questions[i] && !r[i].isOpen
  {
    seq(|questions|, i requires 0 <= i < |questions| => FaqItem(questions[i], false))
  }

  /** `toggleFaq(index)`: the list with item `index` flipped, every other
      item as it was; an index outside the list changes nothing. */
  function ToggleFaq(items: seq<FaqItem>, index: int): (r: seq<FaqItem>)
    ensures |r| == |items|
    ensures forall i :: 0 <= i < |items| && i != index ==> r[i] == items[i]
    ensures 0 <= index < |items| ==> r[index] == items[index].(isOpen := !items[index].isOpen)
    ensures !(0 <= index < |items|) ==> r == items
  {
    seq(|items|, i requires 0 <= i < |items| =>
      if i == index then items[i].(isOpen := !items[i].isOpen) else items[i])
  }

  /** Toggling the same item twice restores the list. */
  lemma ToggleTwice(items: seq<FaqItem>, index: int)
    ensures ToggleFaq(ToggleFaq(items, index), index) == items
  {
  }

  /** Toggling two items commutes: each answer opens and closes on its own. */
  lemma ToggleCommutes(items: seq<FaqItem>, i: int, j: int)
    ensures ToggleFaq(ToggleFaq(items, i), j) == ToggleFaq(ToggleFaq(items, j), i)
  {
  }

  /** The four inputs of the message form. */
  datatype FormField = Name | Email | Phone | Message

  class ContactPage {
    var name: string
    var email: string
    var phone: string
    var message: string
    var faqItems: seq<FaqItem>

    /** The page over its list of questions. */
    constructor (questions: seq<string>)
      ensures name == "" && email == "" && phone == "" && message == ""
      ensures faqItems == InitialFaq(questions)
    {
      name, email, phone, message := "", "", "", "";
      faqItems := InitialFaq(questions);
    }

    /** An input's `onChange`: only that input's state takes the new text. */
    method Edit(field: FormField, value: string)
      modifies this`name, this`email, this`phone, this`message
      ensures name == (if field == Name then value else old(name))
      ensures email == (if field == Email then value else old(email))
      ensures phone == (if field == Phone then value else old(phone))
      ensures message == (if field == Message then value else old(message))
    {
      match field {
        case Name => name := value;
        case Email => email := value;
        case Phone => phone := value;
        case Message => message := value;
      }
    }

    /** The form's inputs pass the browser's checks: all four are
        `required`, so none may be empty, and the email input also checks
        its format, decided here by `emailOk`. */
    predicate Submittable(emailOk: string -> bool)
      reads this
    {
      name != "" && email != "" && phone != "" && message != "" && emailOk(email)
    }

    /** A submit attempt. The browser calls `handleSubmit` only when the
        inputs pass its checks, and `handleSubmit` clears the four inputs;
        otherwise nothing changes. The questions keep their state either
        way. */
    method Submit(emailOk: string -> bool) returns (handled: bool)
      modifies this`name, this`email, this`phone, this`message
      ensures handled <==> old(Submittable(emailOk))
      ensures handled ==> name == "" && email == "" && phone == "" && message == ""
      ensures !handled ==> name == old(name) && email == old(email) && phone == old(phone) && message == old(message)
    {
      handled := Submittable(emailOk);
      if handled {
        name := "";
        email := "";
        phone := "";
        message := "";
      }
    }

    /** A click on a question. */
    method Toggle(index: int)
      modifies this`faqItems
      ensures faqItems == ToggleFaq(old(faqItems), index)
    {
      faqItems := ToggleFaq(faqItems, index);
    }
  }

  /** A handled submit leaves an empty form, so pressing the button again
      right away does nothing. */
  method SubmitTwice(page: ContactPage, emailOk: string -> bool) returns (first: bool, second: bool)
    modifies page
    ensures !second
    ensures first ==> page.name == "" && page.email == "" && page.phone == "" && page.message == ""
    ensures !first ==> page.name == old(page.name) && page.email == old(page.email)
                       && page.phone == old(page.phone) && page.message == old(page.message)
  {
    first := page.Submit(emailOk);
    second := page.Submit(emailOk);
  }

  /** Opening a question and closing it again returns the list to what it
      was. */
  method OpenThenClose(page: ContactPage, index: int)
    modifies page
    ensures page.faqItems == old(page.faqItems)
  {
    page.Toggle(index);
    page.Toggle(index);
    ToggleTwice(old(page.faqItems), index);
  }
}

/** The questions of the contact page's FAQ, kept apart from the page's
    logic. */
module ContactQuestions {
  import opened Contact

  /** The questions the page lists, in order. */
  function Questions(): seq<string>
  {
    ["O que é Home Care?",
     "Qual tipo de paciente pode receber Atenção Domiciliar?",
     "Já tenho plano de saúde, posso contratar?",
     "Não tenho plano de saúde, posso contratar?",
     "Como é definido o tratamento do paciente?",
     "O que devo avaliar na escolha de um cuidador?",
     "Os cuidadores têm formação específica?",
     "Vocês atendem em quais regiões?"]
  }

  /** The page opens with its eight questions, all closed. */
  lemma PageStartsClosed()
    ensures |InitialFaq(Questions())| == 8
    ensures forall i :: 0 <= i < 8 ==> !InitialFaq(Questions())[i].isOpen
  {
  }
}
