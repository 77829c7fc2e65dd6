/** The hero section (`Hero`): three dialog flags, opened by its own buttons and by the
    window events other components dispatch, and the fixed plan of its free-trial dialog. */
module Hero {
  import opened Wrappers
  import opened Events
  import Paywall

  /** The plan the free-trial checkout dialog is always opened with. */
  const FreeTrialPlan := Paywall.SelectedPlan("7-Day Free Trial", 0, Some("trial"))

  /** The free-trial dialog shows the trial subtitle, the "FREE" block and, when idle, the
      "Start Free Trial" button on every tab. */
  lemma FreeTrialSummary(tab: Paywall.Tab)
    ensures Paywall.Summary(FreeTrialPlan) == (Paywall.TrialSubtitle, Paywall.Free)
    ensures Paywall.SubmitLabel(tab, FreeTrialPlan, false) == "Start Free Trial"
    ensures FreeTrialPlan.price == 0
  {
    assert Paywall.IsTrial(FreeTrialPlan);
  }

  /** The section's dialog flags and the window listeners its mount effect registers. */
  class HeroSection {
    var isVideoModalOpen: bool
    var isFreeTrialModalOpen: bool
    var isDemoModalOpen: bool
    /** The events whose listeners are currently registered on the window. */
    var listening: set<EventName>

    /** At mount all three dialogs are closed; the effect has not yet subscribed. */
    constructor ()
      ensures !isVideoModalOpen && !isFreeTrialModalOpen && !isDemoModalOpen
      ensures listening == {}
    {
      isVideoModalOpen := false;
      isFreeTrialModalOpen := false;
      isDemoModalOpen := false;
      listening := {};
    }

    /** The mount effect registers one listener per event. */
    method Subscribe()
      modifies this
      ensures listening == {OpenDemoModal, OpenFreeTrialModal}
      ensures isVideoModalOpen == old(isVideoModalOpen)
      ensures isFreeTrialModalOpen == old(isFreeTrialModalOpen)
      ensures isDemoModalOpen == old(isDemoModalOpen)
    {
      listening := listening + {OpenDemoModal};
      listening := listening + {OpenFreeTrialModal};
      assert forall e :: e in listening ==> e.OpenDemoModal? || e.OpenFreeTrialModal?;
    }

    /** The effect's cleanup removes the two listeners it added, and only those. */
    method Unsubscribe()
      modifies this
      ensures listening == old(listening) - {OpenDemoModal, OpenFreeTrialModal}
      ensures listening == {}
      ensures isVideoModalOpen == old(isVideoModalOpen)
      ensures isFreeTrialModalOpen == old(isFreeTrialModalOpen)
      ensures isDemoModalOpen == old(isDemoModalOpen)
    {
      listening := listening - {OpenDemoModal};
      listening := listening - {OpenFreeTrialModal};
      assert forall e :: e in old(listening) ==> e.OpenDemoModal? || e.OpenFreeTrialModal?;
    }

    /** A window event: a registered listener opens its dialog; an event nobody listens to
        changes nothing. */
    method Dispatch(e: EventName)
      modifies this
      ensures listening == old(listening) && isVideoModalOpen == old(isVideoModalOpen)
      ensures isDemoModalOpen == (old(isDemoModalOpen) || (e == OpenDemoModal && e in listening))
      ensures isFreeTrialModalOpen
           == (old(isFreeTrialModalOpen) || (e == OpenFreeTrialModal && e in listening))
    {
      if e in listening {
        match e
        case OpenDemoModal => isDemoModalOpen := true;
        case OpenFreeTrialModal => isFreeTrialModalOpen := true;
      }
    }

    /** The "Start Free Trial" button (`handleGetStarted`). */
    method HandleGetStarted()
      modifies this
      ensures isFreeTrialModalOpen
      ensures isDemoModalOpen == old(isDemoModalOpen) && isVideoModalOpen == old(isVideoModalOpen)
      ensures listening == old(listening)
    {
      isFreeTrialModalOpen := true;
    }

    /** The "Schedule Demo" button (`handleScheduleDemo`). */
    method HandleScheduleDemo()
      modifies this
      ensures isDemoModalOpen
      ensures isFreeTrialModalOpen == old(isFreeTrialModalOpen)
      ensures isVideoModalOpen == old(isVideoModalOpen)
      ensures listening == old(listening)
    {
      isDemoModalOpen := true;
    }

    /** The video dialog's `onClose`. */
    method CloseVideo()
      modifies this
      ensures !isVideoModalOpen
      ensures isFreeTrialModalOpen == old(isFreeTrialModalOpen)
      ensures isDemoModalOpen == old(isDemoModalOpen) && listening == old(listening)
    {
      isVideoModalOpen := false;
    }

    /** The free-trial dialog's `onClose`. */
    method CloseFreeTrial()
      modifies this
      ensures !isFreeTrialModalOpen
      ensures isVideoModalOpen == old(isVideoModalOpen)
      ensures isDemoModalOpen == old(isDemoModalOpen) && listening == old(listening)
    {
      isFreeTrialModalOpen := false;
    }

    /** The demo dialog's `onClose`. */
    method CloseDemo()
      modifies this
      ensures !isDemoModalOpen
      ensures isVideoModalOpen == old(isVideoModalOpen)
      ensures isFreeTrialModalOpen == old(isFreeTrialModalOpen) && listening == old(listening)
    {
      isDemoModalOpen := false;
    }
  }

  /** After the cleanup has run, neither event changes any flag. */
  method EventsIgnoredAfterTeardown(h: HeroSection, e: EventName)
    modifies h
    ensures h.listening == {}
    ensures h.isVideoModalOpen == old(h.isVideoModalOpen)
    ensures h.isFreeTrialModalOpen == old(h.isFreeTrialModalOpen)
    ensures h.isDemoModalOpen == old(h.isDemoModalOpen)
  {
    h.Subscribe();
    h.Unsubscribe();
    h.Dispatch(e);
  }
}
