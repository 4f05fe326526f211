/** The Contact application's form: four input fields, the set of validation
    errors on display, and the submit state machine (submitting, submitted,
    send error). The outgoing request is recorded in `outbox`; whether the
    network accepted it is reported back through `SendSettled`. */
module ContactView {
  import opened Wrappers

  datatype ValidationError = EmptyName | EmptyEmail | EmptyMessage | InvalidEmail

  /** The string tests `isEmpty` and `isEmail` of components/util, which is
      not part of this model; the form is modelled for any such pair. */
  datatype Util = Util(isEmpty: string -> bool, isEmail: string -> bool)

  /** The inputs of the form, by their `name` attribute. */
  datatype Field = Name | Email | Company | Message

  datatype InputFields = InputFields(name: string, email: string, company: string, message: string)

  /** One key/value pair appended to the outgoing form data. */
  datatype Entry = Entry(key: string, value: string)

  const EmptyFields := InputFields("", "", "", "")
  const SendFailedMessage := "Failed to send message. Please try again."
  const Subject := "New Contact Form Submission - Portfolio"

  function Get(f: InputFields, k: Field): string {
    match k
    case Name => f.name
    case Email => f.email
    case Company => f.company
    case Message => f.message
  }

  /** `{ ...inputFields, [name]: value }` */
  function WithField(f: InputFields, k: Field, v: string): (r: InputFields)
    ensures Get(r, k) == v
    ensures forall other :: other != k ==> Get(r, other) == Get(f, other)
  {
    match k
    case Name => f.(name := v)
    case Email => f.(email := v)
    case Company => f.(company := v)
    case Message => f.(message := v)
  }

  /** The position of each error in the list `validateForm` produces. */
  function Rank(e: ValidationError): nat {
    match e
    case EmptyName => 0
    case EmptyEmail => 1
    case EmptyMessage => 2
    case InvalidEmail => 3
  }

  /** When each error is reported. */
  predicate Applies(e: ValidationError, f: InputFields, util: Util) {
    match e
    case EmptyName => util.isEmpty(f.name)
    case EmptyEmail => util.isEmpty(f.email)
    case EmptyMessage => util.isEmpty(f.message)
    case InvalidEmail => !util.isEmail(f.email)
  }

  /** The error list of `validateForm`: exactly the errors that apply, in the
      fixed order empty-name, empty-email, empty-message, invalid-email, none
      of them twice. */
  function Errors(f: InputFields, util: Util): (r: seq<ValidationError>)
    ensures forall e :: e in r <==> Applies(e, f, util)
    ensures forall i, j :: 0 <= i < j < |r| ==> Rank(r[i]) < Rank(r[j])
  {
    (if util.isEmpty(f.name) then [EmptyName] else [])
    + (if util.isEmpty(f.email) then [EmptyEmail] else [])
    + (if util.isEmpty(f.message) then [EmptyMessage] else [])
    + (if !util.isEmail(f.email) then [InvalidEmail] else [])
  }

  function ErrorSet(es: seq<ValidationError>): set<ValidationError> {
    set e | e in es
  }

  lemma ErrorSetStep(es: seq<ValidationError>, i: nat)
    requires i < |es|
    ensures ErrorSet(es[..i + 1]) == ErrorSet(es[..i]) + {es[i]}
  {
    assert es[..i + 1] == es[..i] + [es[i]];
  }

  /** The form is valid exactly when name, email and message are non-empty and
      the email passes the email test. */
  lemma FormValidIff(f: InputFields, util: Util)
    ensures |Errors(f, util)| == 0 <==>
      !util.isEmpty(f.name) && !util.isEmpty(f.email) && !util.isEmpty(f.message) && util.isEmail(f.email)
  {
    if |Errors(f, util)| == 0 {
      forall e: ValidationError ensures !Applies(e, f, util) {
        assert e !in Errors(f, util);
      }
      assert !Applies(EmptyName, f, util) && !Applies(EmptyEmail, f, util);
      assert !Applies(EmptyMessage, f, util) && !Applies(InvalidEmail, f, util);
    }
  }

  /** The form data of `sendEmail`. */
  function Payload(f: InputFields, util: Util): (r: seq<Entry>)
    ensures |r| == if util.isEmpty(f.company) then 7 else 8
    ensures forall i | 0 <= i < |r| && r[i].key == "company" :: !util.isEmpty(f.company) && r[i].value == f.company
  {
    [Entry("name", f.name), Entry("email", f.email), Entry("message", f.message)]
    + (if !util.isEmpty(f.company) then [Entry("company", f.company)] else [])
    + [Entry("_subject", Subject), Entry("_replyto", f.email), Entry("_captcha", "false"), Entry("_template", "table")]
  }

  function Keys(data: seq<Entry>): seq<string> {
    seq(|data|, i requires 0 <= i < |data| => data[i].key)
  }

  /** Value of the first entry with the given key, as `FormData.get` reads it. */
  function Lookup(data: seq<Entry>, key: string): Option<string> {
    if data == [] then None
    else if data[0].key == key then Some(data[0].value)
    else Lookup(data[1..], key)
  }

  /** The first entry with a key is the one `Lookup` finds. */
  lemma {:induction false} LookupFirst(data: seq<Entry>, i: nat)
    requires i < |data|
    requires forall j :: 0 <= j < i ==> data[j].key != data[i].key
    ensures Lookup(data, data[i].key) == Some(data[i].value)
  {
    if i > 0 {
      LookupFirst(data[1..], i - 1);
    }
  }

  /** A key no entry carries is absent. */
  lemma {:induction false} LookupMissing(data: seq<Entry>, key: string)
    requires forall j :: 0 <= j < |data| ==> data[j].key != key
    ensures Lookup(data, key) == None
  {
    if data != [] {
      LookupMissing(data[1..], key);
    }
  }

  /** The payload carries name, email and message, then the company only when
      it is non-empty, then the four fixed fields. */
  lemma PayloadKeys(f: InputFields, util: Util)
    ensures Keys(Payload(f, util)) ==
      ["name", "email", "message"]
      + (if util.isEmpty(f.company) then [] else ["company"])
      + ["_subject", "_replyto", "_captcha", "_template"]
  {
  }

  /** Each input key carries the value the form supplies; the company is
      present exactly when it is non-empty. */
  lemma PayloadValues(f: InputFields, util: Util)
    ensures Lookup(Payload(f, util), "name") == Some(f.name)
    ensures Lookup(Payload(f, util), "email") == Some(f.email)
    ensures Lookup(Payload(f, util), "message") == Some(f.message)
    ensures Lookup(Payload(f, util), "company") == if util.isEmpty(f.company) then None else Some(f.company)
  {
    var p := Payload(f, util);
    var tail := [Entry("_subject", Subject), Entry("_replyto", f.email), Entry("_captcha", "false"), Entry("_template", "table")];
    if util.isEmpty(f.company) {
      assert p == [Entry("name", f.name), Entry("email", f.email), Entry("message", f.message)] + tail;
      LookupMissing(p, "company");
    } else {
      assert p == [Entry("name", f.name), Entry("email", f.email), Entry("message", f.message), Entry("company", f.company)] + tail;
      LookupFirst(p, 3);
    }
    LookupFirst(p, 0);
    LookupFirst(p, 1);
    LookupFirst(p, 2);
  }

  /** The fixed fields: the subject, the sender's email as reply-to, no
      captcha, and the table template. */
  lemma PayloadFixedFields(f: InputFields, util: Util)
    ensures Lookup(Payload(f, util), "_subject") == Some(Subject)
    ensures Lookup(Payload(f, util), "_replyto") == Some(f.email)
    ensures Lookup(Payload(f, util), "_captcha") == Some("false")
    ensures Lookup(Payload(f, util), "_template") == Some("table")
  {
    var p := Payload(f, util);
    var c := if util.isEmpty(f.company) then 0 else 1;
    assert p[3 + c..] == [Entry("_subject", Subject), Entry("_replyto", f.email), Entry("_captcha", "false"), Entry("_template", "table")];
    LookupFirst(p, 3 + c);
    LookupFirst(p, 4 + c);
    LookupFirst(p, 5 + c);
    LookupFirst(p, 6 + c);
  }

  class ContactForm {
    const util: Util
    var inputFields: InputFields
    var errors: set<ValidationError>
    var submitError: Option<string>
    var isSubmitting: bool
    var isSubmitted: bool
    /** Every form payload handed to the network, in order. */
    var outbox: seq<seq<Entry>>

    constructor (util: Util)
      ensures this.util == util
      ensures inputFields == EmptyFields && errors == {} && submitError == None
      ensures !isSubmitting && !isSubmitted && outbox == []
    {
      this.util := util;
      inputFields := EmptyFields;
      errors := {};
      submitError := None;
      isSubmitting := false;
      isSubmitted := false;
      outbox := [];
    }

    /** `handleChange`: the input named `field` takes the new value; the other
        three keep theirs. */
    method HandleChange(field: Field, value: string)
      modifies this`inputFields
      ensures inputFields == WithField(old(inputFields), field, value)
      ensures Get(inputFields, field) == value
      ensures forall other :: other != field ==> Get(inputFields, other) == Get(old(inputFields), other)
    {
      inputFields := WithField(inputFields, field, value);
    }

    method ResetInput()
      modifies this`inputFields
      ensures inputFields == EmptyFields
    {
      inputFields := InputFields("", "", "", "");
    }

    /** `validateForm`, pushing each applicable error in turn. */
    method ValidateForm() returns (list: seq<ValidationError>)
      ensures list == Errors(inputFields, util)
    {
      list := [];
      if util.isEmpty(inputFields.name) { list := list + [EmptyName]; }
      if util.isEmpty(inputFields.email) { list := list + [EmptyEmail]; }
      if util.isEmpty(inputFields.message) { list := list + [EmptyMessage]; }
      if !util.isEmail(inputFields.email) { list := list + [InvalidEmail]; }
    }

    /** `isFormValid`: no validation error applies. */
    predicate IsFormValid()
      reads this
      ensures IsFormValid() <==>
        && !util.isEmpty(inputFields.name) && !util.isEmpty(inputFields.email)
        && !util.isEmpty(inputFields.message) && util.isEmail(inputFields.email)
    {
      FormValidIff(inputFields, util);
      |Errors(inputFields, util)| == 0
    }

    /** The submit button is enabled exactly when the four checks pass and no
        send is in flight. */
    predicate SubmitEnabled()
      reads this
      ensures SubmitEnabled() <==>
        && !util.isEmpty(inputFields.name) && !util.isEmpty(inputFields.email)
        && !util.isEmpty(inputFields.message) && util.isEmail(inputFields.email)
        && !isSubmitting
    {
      FormValidIff(inputFields, util);
      !(!IsFormValid() || isSubmitting)
    }

    /** `handleFromErrors`: adds every current validation error to the error
        set, one at a time, and removes none. */
    method HandleFromErrors()
      modifies this`errors
      ensures errors == old(errors) + ErrorSet(Errors(inputFields, util))
    {
      var list := ValidateForm();
      ghost var before := errors;
      var i := 0;
      while i < |list|
        invariant 0 <= i <= |list|
        invariant errors == before + ErrorSet(list[..i])
      {
        ErrorSetStep(list, i);
        errors := errors + {list[i]};
        i := i + 1;
      }
      assert list[..i] == list;
    }

    /** The form data `sendEmail` builds, one append at a time. */
    method BuildPayload() returns (data: seq<Entry>)
      ensures data == Payload(inputFields, util)
    {
      data := [];
      data := data + [Entry("name", inputFields.name)];
      data := data + [Entry("email", inputFields.email)];
      data := data + [Entry("message", inputFields.message)];
      if !util.isEmpty(inputFields.company) {
        data := data + [Entry("company", inputFields.company)];
      }
      data := data + [Entry("_subject", Subject)];
      data := data + [Entry("_replyto", inputFields.email)];
      data := data + [Entry("_captcha", "false")];
      data := data + [Entry("_template", "table")];
    }

    /** `onSubmit`. A valid form is handed to the network and stays in the
        submitting state until `SendSettled`; an invalid one sends nothing,
        has its errors shown and leaves the submitting state at once. */
    method OnSubmit()
      modifies this`isSubmitting, this`isSubmitted, this`submitError, this`errors, this`outbox
      ensures !isSubmitted && submitError == None
      ensures old(IsFormValid()) ==>
        && isSubmitting
        && outbox == old(outbox) + [Payload(inputFields, util)]
        && errors == old(errors)
      ensures !old(IsFormValid()) ==>
        && !isSubmitting
        && outbox == old(outbox)
        && errors == old(errors) + ErrorSet(Errors(inputFields, util))
    {
      isSubmitting := true;
      isSubmitted := false;
      submitError := None;
      if IsFormValid() {
        var data := BuildPayload();
        outbox := outbox + [data];
      } else {
        HandleFromErrors();
        isSubmitting := false;
      }
    }

    /** The settled send: `ok` tells whether the request succeeded. Success
        shows the confirmation, clears the four fields and the errors; failure
        shows the retry message and keeps inputs and errors. Either way the
        form leaves the submitting state. */
    method SendSettled(ok: bool)
      modifies this`isSubmitting, this`isSubmitted, this`submitError, this`errors, this`inputFields
      ensures !isSubmitting
      ensures ok ==> isSubmitted && inputFields == EmptyFields && errors == {} && submitError == old(submitError)
      ensures !ok ==>
        && submitError == Some(SendFailedMessage)
        && inputFields == old(inputFields) && errors == old(errors) && isSubmitted == old(isSubmitted)
    {
      if ok {
        isSubmitted := true;
        ResetInput();
        errors := {};
      } else {
        submitError := Some("Failed to send message. Please try again.");
      }
      isSubmitting := false;
    }

    /** "Send Another Message". */
    method SendAnother()
      modifies this`isSubmitted, this`submitError
      ensures !isSubmitted && submitError == None
    {
      isSubmitted := false;
      submitError := None;
    }
  }
}
