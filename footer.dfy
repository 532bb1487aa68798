/**
 * The landing page's waitlist form: the typed email, the `loading` flag that
 * disables the button, and the snackbar that reports the outcome. Submitting
 * runs in two steps: the synchronous part up to the simulated network call,
 * and the continuation after it, whose success or failure is a parameter.
 */
module Footer {
  import opened EmailPatterns

  datatype Severity = Success | Error

  datatype Snackbar = Snackbar(open: bool, message: string, severity: Severity)

  const InvalidEmailMessage := "Please enter a valid email address"
  const JoinedMessage := "Successfully joined the waitlist! We'll notify you soon."
  const FailedMessage := "Something went wrong. Please try again later."

  /** A closed snackbar with no message. */
  const ClosedSnackbar := Snackbar(false, "", Success)

  /** The snackbar shown for a rejected email. */
  const InvalidEmailSnackbar := Snackbar(true, InvalidEmailMessage, Error)

  /** The snackbar shown once the simulated call has answered. */
  function OutcomeSnackbar(isSuccess: bool): (s: Snackbar)
    ensures s.open
    ensures s.severity == Success <==> isSuccess
    ensures s != InvalidEmailSnackbar
  {
    if isSuccess then Snackbar(true, JoinedMessage, Success)
    else Snackbar(true, FailedMessage, Error)
  }

  /** Every snackbar the form opens is an error exactly when it does not report a join. */
  lemma SeverityMatchesMessage(isSuccess: bool)
    ensures OutcomeSnackbar(isSuccess).severity == Error <==> OutcomeSnackbar(isSuccess).message != JoinedMessage
    ensures InvalidEmailSnackbar.severity == Error && InvalidEmailSnackbar.message != JoinedMessage
  {
  }

  class Waitlist {
    var email: string
    var loading: bool
    var snackbar: Snackbar

    constructor ()
      ensures email == "" && !loading && snackbar == ClosedSnackbar
    {
      email := "";
      loading := false;
      snackbar := ClosedSnackbar;
    }

    /** The text field's `onChange`. */
    method SetEmail(value: string)
      modifies this
      ensures email == value && loading == old(loading) && snackbar == old(snackbar)
    {
      email := value;
    }

    /**
     * The part of `handleSubmit` before the simulated call: a rejected email
     * opens the error snackbar and stops; an accepted one sets `loading`.
     * `pending` says whether the call is now outstanding.
     */
    method Submit() returns (pending: bool)
      modifies this
      ensures pending <==> WaitlistPattern(email)
      ensures email == old(email)
      ensures !pending ==> snackbar == InvalidEmailSnackbar && loading == old(loading)
      ensures pending ==> loading && snackbar == old(snackbar)
    {
      if !WaitlistPattern(email) {
        snackbar := InvalidEmailSnackbar;
        return false;
      }
      loading := true;
      pending := true;
    }

    /**
     * The continuation after the simulated call: report the outcome, clear
     * the email only on success, and, in the `finally` block, drop `loading`.
     */
    method Resume(isSuccess: bool)
      modifies this
      ensures snackbar == OutcomeSnackbar(isSuccess)
      ensures email == if isSuccess then "" else old(email)
      ensures !loading
    {
      if isSuccess {
        snackbar := OutcomeSnackbar(true);
        email := "";
      } else {
        snackbar := OutcomeSnackbar(false);
      }
      loading := false;
    }

    /** A whole submission with the call's outcome given: it never leaves `loading` set. */
    method HandleSubmit(isSuccess: bool)
      modifies this
      ensures WaitlistPattern(old(email)) ==>
                snackbar == OutcomeSnackbar(isSuccess) && !loading
                && email == (if isSuccess then "" else old(email))
      ensures !WaitlistPattern(old(email)) ==>
                snackbar == InvalidEmailSnackbar && loading == old(loading) && email == old(email)
      ensures !old(loading) ==> !loading
    {
      var pending := Submit();
      if pending {
        Resume(isSuccess);
      }
    }

    /** `handleCloseSnackbar`: hides the snackbar and keeps its message and severity. */
    method HandleCloseSnackbar()
      modifies this
      ensures snackbar == old(snackbar).(open := false)
      ensures email == old(email) && loading == old(loading)
    {
      snackbar := snackbar.(open := false);
    }
  }
}
