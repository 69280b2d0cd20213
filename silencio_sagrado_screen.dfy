/** The silence screen (src/screens/SilencioSagradoScreen.tsx): pick a duration, count
    it down one second at a time, stop early on confirmation, and acknowledge the end. */
module SilencioSagradoScreen {
  import opened Js
  import Countdown

  /** An offered duration: its caption and its length in seconds. */
  datatype DurationOption = DurationOption(caption: string, seconds: nat)

  const DURATIONS: seq<DurationOption> := [
    DurationOption("3 minutos", 3 * 60),
    DurationOption("5 minutos", 5 * 60),
    DurationOption("10 minutos", 10 * 60),
    DurationOption("15 minutos", 15 * 60),
    DurationOption("20 minutos", 20 * 60),
    DurationOption("30 minutos", 30 * 60)
  ]

  /** A whole number of minutes between 3 and 30, captioned with that number. */
  predicate MinutesOption(d: DurationOption) {
    d.seconds % 60 == 0 && 180 <= d.seconds <= 1800
    && d.caption == NatToString(d.seconds / 60) + " minutos"
  }

  /** An option captioned "`digits` minutos" is well formed when `digits` is the
      decimal text of its minutes. */
  lemma Captioned(d: DurationOption, minutes: nat, digits: string)
    requires 3 <= minutes <= 30 && NatToString(minutes) == digits
    requires d == DurationOption(digits + " minutos", minutes * 60)
    ensures MinutesOption(d)
  {
  }

  /** The three shorter options are well formed. */
  lemma ShortOptionsWellFormed()
    ensures forall i :: 0 <= i < 3 ==> MinutesOption(DURATIONS[i])
  {
    Captioned(DURATIONS[0], 3, "3");
    Captioned(DURATIONS[1], 5, "5");
    Captioned(DURATIONS[2], 10, "10");
  }

  /** The three longer options are well formed. */
  lemma LongOptionsWellFormed()
    ensures forall i :: 3 <= i < 6 ==> MinutesOption(DURATIONS[i])
  {
    Captioned(DURATIONS[3], 15, "15");
    Captioned(DURATIONS[4], 20, "20");
    Captioned(DURATIONS[5], 30, "30");
  }

  /** Every offered duration is a whole number of minutes between 3 and 30, its caption
      names that number of minutes, and the list runs from shortest to longest. */
  lemma DurationsWellFormed()
    ensures forall i :: 0 <= i < |DURATIONS| ==> MinutesOption(DURATIONS[i])
    ensures forall i, j :: 0 <= i < j < |DURATIONS| ==> DURATIONS[i].seconds < DURATIONS[j].seconds
  {
    ShortOptionsWellFormed();
    LongOptionsWellFormed();
  }

  class SilencioSagradoScreen {
    var isActive: bool
    var timer: nat
    var selectedDuration: nat

    constructor ()
      ensures !isActive && timer == 0 && selectedDuration == 0
    {
      isActive := false;
      timer := 0;
      selectedDuration := 0;
    }

    function ClockState(): Countdown.Clock
      reads this
    {
      Countdown.Clock(isActive, timer)
    }

    /** `startSilence(duration)` */
    method StartSilence(duration: nat)
      modifies this
      ensures selectedDuration == duration && timer == duration && isActive
    {
      selectedDuration := duration;
      timer := duration;
      isActive := true;
    }

    /** One run of the countdown effect (one elapsed second). */
    method Tick()
      modifies this
      ensures ClockState() == Countdown.Tick(old(ClockState()))
      ensures selectedDuration == old(selectedDuration)
    {
      if isActive && timer > 0 {
        timer := timer - 1;
      } else if timer == 0 && isActive {
        CompleteMeditation();
      }
    }

    /** `stopSilence`: the confirmation dialog's "Terminar" resets the session;
        "Continuar" leaves it running. */
    method StopSilence(confirmed: bool)
      modifies this
      ensures confirmed ==> !isActive && timer == 0 && selectedDuration == 0
      ensures !confirmed ==> isActive == old(isActive) && timer == old(timer)
                             && selectedDuration == old(selectedDuration)
    {
      if confirmed {
        isActive := false;
        timer := 0;
        selectedDuration := 0;
      }
    }

    /** `completeMeditation`: the session ends; the chosen duration stays on screen
        until the completion dialog is acknowledged. */
    method CompleteMeditation()
      modifies this
      ensures !isActive && timer == old(timer) && selectedDuration == old(selectedDuration)
    {
      isActive := false;
    }

    /** The completion dialog's "Finalizar". */
    method AcknowledgeCompletion()
      modifies this
      ensures selectedDuration == 0 && isActive == old(isActive) && timer == old(timer)
    {
      selectedDuration := 0;
    }
  }
}
