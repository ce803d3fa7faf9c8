/** What a form submit reports back: saved, or an alert shown and nothing saved. */
module Forms {

  datatype Outcome = Saved | Rejected(alert: string)
}
