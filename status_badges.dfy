/** The two appointment lists colour statuses with the same palette but
    spell the completed state differently: the doctor view says `COMPLETE`,
    the patient view `COMPLETED`. Each view keeps its own spelling. */
module StatusBadges {
  import opened Api
  import DoctorAppointments
  import PatientAppointments

  /** The two badge switches agree on every status except the two
      spellings of "completed", each of which only its own view colours
      green and the other shows gray. */
  lemma BadgesDisagreeOnlyOnCompletion(status: string)
    ensures DoctorAppointments.StatusClasses(status) != PatientAppointments.StatusClasses(status)
            <==> status == "COMPLETE" || status == "COMPLETED"
    ensures DoctorAppointments.StatusClasses("COMPLETED") == GrayBadge
    ensures PatientAppointments.StatusClasses("COMPLETE") == GrayBadge
  {
  }
}
