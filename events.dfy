/** The two window events the page uses to ask the hero section for one of its dialogs. */
module Events {

  /** `'openDemoModal'` and `'openFreeTrialModal'`. */
  datatype EventName = OpenDemoModal | OpenFreeTrialModal
}
