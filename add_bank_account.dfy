/**
 * The add/edit bank-account form: its starting values, the save gate and the
 * payload handed to the account-creation request. The request's outcome is an
 * input; a failure rejects `save` with nothing caught.
 */
module AddBankAccount {
  import opened Wrappers
  import opened Text
  import BankAccounts

  /** The navigation parameters the form is opened with. */
  datatype Params = Params(mode: Option<string>, account: Option<BankAccounts.BankAccount>)

  /** The mode: the given one when truthy, otherwise "add". */
  function Mode(p: Params): (m: string)
    ensures m == "add" <==> !TextTruthy(p.mode) || p.mode == Some("add")
    ensures TextTruthy(p.mode) ==> m == p.mode.value
  {
    if TextTruthy(p.mode) then p.mode.value else "add"
  }

  /** The four text fields. */
  datatype Form = Form(holderName: string, bankName: string, accountNumber: string, ifsc: string)

  /** The fields start from the account being edited, the account number always
      empty. */
  function InitialForm(initial: Option<BankAccounts.BankAccount>): (f: Form)
    ensures f.accountNumber == ""
    ensures initial.None? ==> f == Form("", "", "", "")
    ensures initial.Some? ==>
      f.holderName == initial.value.holderName && f.bankName == initial.value.bankName && f.ifsc == initial.value.ifsc
  {
    match initial
    case None => Form("", "", "", "")
    case Some(a) => Form(a.holderName, a.bankName, "", a.ifsc)
  }

  /** `canSave`: the three named fields are non-blank, and so is the account
      number unless the form edits an account. */
  predicate CanSave(f: Form, mode: string)
    ensures CanSave(f, mode) ==> f.holderName != "" && f.bankName != "" && f.ifsc != ""
  {
    && Trim(f.holderName) != ""
    && Trim(f.bankName) != ""
    && Trim(f.ifsc) != ""
    && (mode == "edit" || Trim(f.accountNumber) != "")
  }

  /** The request body. */
  datatype Payload = Payload(holderName: string, bankName: string, accountNumber: Option<string>, ifsc: string)

  /** The request body: trimmed fields, and the edited account's number when the
      field is left blank. */
  function SavePayload(f: Form, initial: Option<BankAccounts.BankAccount>): (p: Payload)
    ensures p.holderName == Trim(f.holderName) && p.bankName == Trim(f.bankName) && p.ifsc == Trim(f.ifsc)
    ensures Trim(f.accountNumber) != "" ==> p.accountNumber == Some(Trim(f.accountNumber))
    ensures Trim(f.accountNumber) == "" && initial.Some? ==> p.accountNumber == initial.value.accountNumber
    ensures Trim(f.accountNumber) == "" && initial.None? ==> p.accountNumber == None
  {
    var n := Trim(f.accountNumber);
    if n != "" then Payload(Trim(f.holderName), Trim(f.bankName), Some(n), Trim(f.ifsc))
    else Payload(Trim(f.holderName), Trim(f.bankName), if initial.Some? then initial.value.accountNumber else None, Trim(f.ifsc))
  }

  /** The edit form skips the account-number check, so whatever may be saved
      when adding may be saved when editing. */
  lemma EditGateIsLooser(f: Form)
    ensures CanSave(f, "add") ==> CanSave(f, "edit")
  {
  }

  /** A saveable form gives a payload of trimmed, non-empty fields; in add mode
      it always carries the typed account number. */
  lemma SaveablePayload(f: Form, mode: string, initial: Option<BankAccounts.BankAccount>)
    requires CanSave(f, mode)
    ensures var p := SavePayload(f, initial);
      && p.holderName != "" && p.bankName != "" && p.ifsc != ""
      && Trimmed(p.holderName) && Trimmed(p.bankName) && Trimmed(p.ifsc)
      && (mode != "edit" ==> p.accountNumber.Some? && p.accountNumber.value != "" && Trimmed(p.accountNumber.value))
  {
  }

  /** Filling the form with a payload's own text gives that payload back. */
  lemma PayloadStable(f: Form, initial: Option<BankAccounts.BankAccount>)
    requires Trim(f.accountNumber) != ""
    ensures var p := SavePayload(f, initial);
      SavePayload(Form(p.holderName, p.bankName, p.accountNumber.value, p.ifsc), initial) == p
  {
    TrimTwice(f.holderName);
    TrimTwice(f.bankName);
    TrimTwice(f.ifsc);
    TrimTwice(f.accountNumber);
  }

  lemma TrimTwice(s: string)
    ensures Trim(Trim(s)) == Trim(s)
  {
    TrimUnique([], Trim(s), []);
    assert [] + Trim(s) + [] == Trim(s);
  }

  /** How a tap on Save ends. */
  datatype SaveOutcome =
    | MissingDetails
    /** The request failed; the rejection is not caught, so nothing is shown. */
    | SaveFailed(sent: Payload)
    /** Saved; the confirmation says which mode it was. */
    | Saved(sent: Payload, message: string)

  /** The form's state. */
  class Screen {
    const mode: string
    const initial: Option<BankAccounts.BankAccount>
    var form: Form

    constructor(p: Params)
      ensures mode == Mode(p) && initial == p.account && form == InitialForm(p.account)
    {
      mode := Mode(p);
      initial := p.account;
      form := InitialForm(p.account);
    }

    method Edit(f: Form)
      modifies this
      ensures form == f
    {
      form := f;
    }

    /** `save`: the gate, then one request, then the confirmation. */
    method Save(requestOk: bool) returns (outcome: SaveOutcome)
      ensures outcome == MissingDetails <==> !CanSave(form, mode)
      ensures outcome.SaveFailed? <==> CanSave(form, mode) && !requestOk
      ensures !outcome.MissingDetails? ==> outcome.sent == SavePayload(form, initial)
      ensures outcome.Saved? ==> (outcome.message == "Account updated." <==> mode == "edit")
      ensures outcome.Saved? ==> (outcome.message == "Account added." <==> mode != "edit")
    {
      if !CanSave(form, mode) {
        return MissingDetails;
      }
      var body := SavePayload(form, initial);
      if !requestOk {
        return SaveFailed(body);
      }
      outcome := Saved(body, if mode == "edit" then "Account updated." else "Account added.");
    }
  }

  /** Editing a seeded account with the number left blank saves, and sends no
      account number because the seeded accounts carry none; adding the same
      account needs the number. */
  method EditWithoutNumber() returns (edited: SaveOutcome, added: SaveOutcome)
    ensures edited.Saved? && edited.sent.accountNumber == None
    ensures added == MissingDetails
  {
    var account := BankAccounts.InitialAccounts()[0];
    var edit := new Screen(Params(Some("edit"), Some(account)));
    NonBlank(account.holderName);
    NonBlank(account.bankName);
    NonBlank(account.ifsc);
    edited := edit.Save(true);
    var add := new Screen(Params(None, Some(account)));
    added := add.Save(true);
  }

  /** A seeded field with a letter at its head is not blank. */
  lemma NonBlank(s: string)
    requires s != [] && !IsSpace(s[0])
    ensures Trim(s) != ""
  {
    var p, q := TrimParts(s);
  }
}
