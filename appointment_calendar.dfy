/** The appointment calendar's form: a date, a time and a visit type, scheduled as a
    pending appointment. */
module AppointmentCalendar {
  import opened Wrappers

  /** An appointment without its id, as handed to `onSchedule`. `kind` is the
      appointment type. */
  datatype Appointment = Appointment(
    userId: string, doctorId: string, date: string, time: string, status: string, kind: string)

  datatype CalendarForm = CalendarForm(selectedDate: string, selectedTime: string, appointmentType: string)

  /** The placeholder user and doctor every appointment is booked for. */
  const PlaceholderId: string := "1"

  const InitialForm: CalendarForm := CalendarForm("", "", "consultation")

  /** `handleSubmit`: the appointment passed to `onSchedule`, or `None` when the date
      or the time is still empty. */
  function Submit(form: CalendarForm): (r: Option<Appointment>)
    ensures r.Some? <==> form.selectedDate != "" && form.selectedTime != ""
    ensures r.Some? ==> r.value.status == "pending"
                        && r.value.userId == PlaceholderId && r.value.doctorId == PlaceholderId
  {
    if form.selectedDate != "" && form.selectedTime != "" then
      Some(Appointment(PlaceholderId, PlaceholderId, form.selectedDate, form.selectedTime,
                       "pending", form.appointmentType))
    else None
  }

  /** The form an appointment was scheduled from. */
  function FormOf(a: Appointment): CalendarForm
  {
    CalendarForm(a.date, a.time, a.kind)
  }

  /** Date, time and type pass through unchanged: the form can be read back from the
      scheduled appointment, and scheduling that form again gives the same one. */
  lemma SubmitRoundTrip(form: CalendarForm)
    requires Submit(form).Some?
    ensures FormOf(Submit(form).value) == form
    ensures Submit(FormOf(Submit(form).value)) == Submit(form)
  {
  }

  /** The untouched form schedules nothing; picking a date and a time schedules a
      consultation. */
  lemma InitialFormDefaults(date: string, time: string)
    ensures Submit(InitialForm) == None
    ensures date != "" && time != "" ==>
              Submit(InitialForm.(selectedDate := date, selectedTime := time)).value.kind == "consultation"
  {
  }
}
