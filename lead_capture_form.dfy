/**
 * The lead capture dialog: the schema every field must meet before the form
 * is handed on, and the `isSubmitting` flag that disables both buttons while
 * the parent's submit handler runs. The email check and the handler's outcome
 * come in as parameters.
 */
module LeadCaptureForm {
  datatype FormData = FormData(nome: string, email: string, empresa: string, cargo: string, telefone: string)

  datatype FieldError = FieldError(field: string, message: string)

  /** The untouched form: every field empty. */
  const Defaults := FormData("", "", "", "", "")

  const NomeMessage := "Nome deve ter pelo menos 2 caracteres"
  const EmailMessage := "Email inválido"
  const EmpresaMessage := "Nome da empresa deve ter pelo menos 2 caracteres"
  const CargoMessage := "Cargo deve ter pelo menos 2 caracteres"
  const TelefoneMessage := "Telefone deve ter pelo menos 10 dígitos"

  /** The schema's rules: minimum lengths (in characters, not digits) and a valid email. */
  predicate Accepted(d: FormData, validEmail: string -> bool) {
    |d.nome| >= 2 && validEmail(d.email) && |d.empresa| >= 2 && |d.cargo| >= 2 && |d.telefone| >= 10
  }

  function Check(ok: bool, field: string, message: string): seq<FieldError> {
    if ok then [] else [FieldError(field, message)]
  }

  /** The schema's errors, one per failing field, in field order. */
  function Validate(d: FormData, validEmail: string -> bool): (errors: seq<FieldError>)
    ensures errors == [] <==> Accepted(d, validEmail)
    ensures |errors| <= 5
    ensures FieldError("nome", NomeMessage) in errors <==> |d.nome| < 2
    ensures FieldError("telefone", TelefoneMessage) in errors <==> |d.telefone| < 10
  {
    Check(|d.nome| >= 2, "nome", NomeMessage)
    + Check(validEmail(d.email), "email", EmailMessage)
    + Check(|d.empresa| >= 2, "empresa", EmpresaMessage)
    + Check(|d.cargo| >= 2, "cargo", CargoMessage)
    + Check(|d.telefone| >= 10, "telefone", TelefoneMessage)
  }

  /** The untouched form fails on every length rule, whatever the email check says. */
  lemma DefaultsRejected(validEmail: string -> bool)
    ensures !Accepted(Defaults, validEmail)
    ensures |Validate(Defaults, validEmail)| >= 4
  {
  }

  /** What the dialog does towards its parent, in order. */
  datatype Event =
    | SubmitCalled(data: FormData, buttonsDisabled: bool)
    | CloseCalled

  /** How the parent's `onSubmit` ends. */
  datatype Outcome = Completes | Throws

  class LeadForm {
    var isSubmitting: bool
    var events: seq<Event>

    constructor()
      ensures !isSubmitting && events == []
    {
      isSubmitting := false;
      events := [];
    }

    /** Both buttons are disabled exactly while a submission is in flight. */
    predicate ButtonsDisabled()
      reads this
    {
      isSubmitting
    }

    function SubmitLabel(): string
      reads this
    {
      if isSubmitting then "Processando..." else "Baixar Relatório"
    }

    /**
     * `handleSubmit`: the flag is raised before `onSubmit` runs (so the
     * buttons are disabled during it), `onClose` follows only a completed
     * submit, and the flag is lowered on both paths.
     */
    method HandleSubmit(data: FormData, outcome: Outcome) returns (threw: bool)
      modifies this
      ensures !isSubmitting
      ensures threw <==> outcome == Throws
      ensures events == old(events) + [SubmitCalled(data, true)] + (if outcome == Completes then [CloseCalled] else [])
    {
      isSubmitting := true;
      events := events + [SubmitCalled(data, ButtonsDisabled())];
      if outcome == Completes {
        events := events + [CloseCalled];
        threw := false;
      } else {
        threw := true;
      }
      isSubmitting := false;
    }

    /** `form.handleSubmit(handleSubmit)`: an invalid form reports its errors and calls nothing. */
    method Submit(data: FormData, validEmail: string -> bool, outcome: Outcome) returns (errors: seq<FieldError>, threw: bool)
      modifies this
      ensures errors == Validate(data, validEmail)
      ensures Accepted(data, validEmail) ==> !isSubmitting
      ensures !Accepted(data, validEmail) ==> events == old(events) && isSubmitting == old(isSubmitting) && !threw
      ensures Accepted(data, validEmail) ==>
        events == old(events) + [SubmitCalled(data, true)] + (if outcome == Completes then [CloseCalled] else [])
        && (threw <==> outcome == Throws)
    {
      errors := Validate(data, validEmail);
      threw := false;
      if errors == [] {
        threw := HandleSubmit(data, outcome);
      }
    }
  }
}
