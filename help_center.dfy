/** The support-ticket form of src/components/HelpCenter.tsx. */
module HelpCenter {

  /** The four fields of the ticket form. */
  datatype TicketForm = TicketForm(subject: string, message: string, email: string, phone: string)

  const EmptyForm: TicketForm := TicketForm("", "", "", "")

  /** Subject, message and email are required; the phone number is optional. */
  predicate HasRequiredFields(form: TicketForm) {
    form.subject != "" && form.message != "" && form.email != ""
  }

  /** The phone number never decides whether a ticket is accepted. */
  lemma PhoneIsOptional(form: TicketForm, phone: string)
    ensures HasRequiredFields(form.(phone := phone)) == HasRequiredFields(form)
    ensures HasRequiredFields(form) ==> HasRequiredFields(form.(phone := ""))
  {
  }

  /** The HelpCenter component's form state and handlers. */
  class HelpCenterPage {
    var ticketForm: TicketForm

    constructor ()
      ensures ticketForm == EmptyForm
    {
      ticketForm := EmptyForm;
    }

    method EditEmail(value: string)
      modifies this
      ensures ticketForm == old(ticketForm).(email := value)
    {
      ticketForm := ticketForm.(email := value);
    }

    method EditPhone(value: string)
      modifies this
      ensures ticketForm == old(ticketForm).(phone := value)
    {
      ticketForm := ticketForm.(phone := value);
    }

    method EditSubject(value: string)
      modifies this
      ensures ticketForm == old(ticketForm).(subject := value)
    {
      ticketForm := ticketForm.(subject := value);
    }

    method EditMessage(value: string)
      modifies this
      ensures ticketForm == old(ticketForm).(message := value)
    {
      ticketForm := ticketForm.(message := value);
    }

    /** `handleSubmitTicket`: rejects an incomplete form and leaves it as it
        is; accepts a complete one and clears all four fields. `accepted`
        stands for which of the two alerts is shown. */
    method HandleSubmitTicket() returns (accepted: bool)
      modifies this
      ensures accepted <==> HasRequiredFields(old(ticketForm))
      ensures accepted ==> ticketForm == EmptyForm
      ensures !accepted ==> ticketForm == old(ticketForm)
    {
      if ticketForm.subject == "" || ticketForm.message == "" || ticketForm.email == "" {
        return false;
      }
      ticketForm := TicketForm("", "", "", "");
      return true;
    }
  }
}
