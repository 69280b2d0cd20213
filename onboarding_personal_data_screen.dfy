/** The personal-data onboarding screen (src/screens/onboarding/OnboardingPersonalDataScreen.tsx):
    the ordered checks in front of `savePersonalData`, the first name passed on, and
    the text the date and time pickers write into the form. */
module OnboardingPersonalDataScreen {
  import opened Js
  import opened Text
  import OnboardingService

  datatype Form = Form(fullName: string, birthDate: string, birthPlace: string, birthTime: string)

  /** How `handleNext` ends: stopped by a check, saved and moved on with the first
      name, or failed while saving. */
  datatype NextResult = Blocked(dialog: Dialog) | Advanced(name: string) | SaveFailed(dialog: Dialog)

  const MISSING_FIELDS := Dialog("Un momento", "Por favor, completa tu nombre, fecha y lugar de nacimiento.")
  const INVALID_DATE := Dialog("Fecha Inválida", "Por favor, introduce la fecha en formato YYYY-MM-DD.")
  const INVALID_TIME := Dialog("Hora Inválida", "Por favor, introduce la hora en formato HH:MM.")
  const SAVE_ERROR := Dialog("Error", "No se pudieron guardar tus datos. Inténtalo de nuevo.")

  /** `full_name.trim() && birth_date.trim() && birth_place.trim()` */
  predicate RequiredFilled(form: Form) {
    !IsBlank(form.fullName) && !IsBlank(form.birthDate) && !IsBlank(form.birthPlace)
  }

  /** The checks, in order: the three required fields (trimmed), then the date, then
      the time only when one was entered. `validDate` and `validTime` stand for
      date-fns `isValid(parse(s, 'yyyy-MM-dd'))` and `isValid(parse(s, 'HH:mm'))`. */
  function Validate(form: Form, validDate: string -> bool, validTime: string -> bool): (d: Option<Dialog>)
    ensures !RequiredFilled(form) ==> d == Some(MISSING_FIELDS)
    ensures RequiredFilled(form) && !validDate(form.birthDate) ==> d == Some(INVALID_DATE)
    ensures RequiredFilled(form) && validDate(form.birthDate) && form.birthTime != "" && !validTime(form.birthTime)
            ==> d == Some(INVALID_TIME)
    ensures d.None? <==> RequiredFilled(form) && validDate(form.birthDate)
                         && (form.birthTime == "" || validTime(form.birthTime))
  {
    if !RequiredFilled(form) then Some(MISSING_FIELDS)
    else if !validDate(form.birthDate) then Some(INVALID_DATE)
    else if form.birthTime != "" && !validTime(form.birthTime) then Some(INVALID_TIME)
    else None
  }

  /** The form goes to `savePersonalData` exactly as entered, birth time included even
      when empty. */
  function SentData(form: Form): (data: OnboardingService.PersonalData)
    ensures data.fullName == form.fullName && data.birthDate == form.birthDate
    ensures data.birthPlace == form.birthPlace && data.birthTime == Some(form.birthTime)
  {
    OnboardingService.PersonalData(form.fullName, form.birthDate, form.birthPlace, Some(form.birthTime))
  }

  /** `full_name.split(' ')[0]`: the text before the first space, or all of it. */
  function FirstName(fullName: string): (name: string)
    ensures name <= fullName && ' ' !in name
    ensures ' ' in fullName ==> |name| < |fullName| && fullName[|name|] == ' '
    ensures ' ' !in fullName ==> name == fullName
  {
    SplitFirst(fullName, ' ');
    Split(fullName, ' ')[0]
  }

  /** The date picker's text: `${yyyy}-${mm}-${dd}`, with the month (`getMonth() + 1`)
      and the day padded to two digits. */
  function DateText(year: int, monthIndex: nat, day: nat): string {
    IntToString(year) + "-" + Padded2Pair(monthIndex + 1, '-', day)
  }

  /** The date text splits back into the year's text, the month and the day, with the
      dashes six and three characters from the end. */
  lemma DateTextRoundTrip(year: int, monthIndex: nat, day: nat)
    requires monthIndex < 12 && 1 <= day <= 31
    ensures var r := DateText(year, monthIndex, day);
      |r| >= 6 && r[|r| - 6] == '-' && r[|r| - 3] == '-'
      && r[..|r| - 6] == IntToString(year)
      && AllDigits(r[|r| - 5..|r| - 3]) && ParseNat(r[|r| - 5..|r| - 3]) == monthIndex + 1
      && AllDigits(r[|r| - 2..]) && ParseNat(r[|r| - 2..]) == day
  {
    var tail := Padded2Pair(monthIndex + 1, '-', day);
    Padded2PairRoundTrip(monthIndex + 1, '-', day);
    var r := DateText(year, monthIndex, day);
    var head := IntToString(year) + "-";
    assert |tail| == 5 && r == head + tail;
    assert r[|r| - 5..] == tail;
    assert r[|r| - 6] == '-';
    assert r[|r| - 5..|r| - 3] == tail[..|tail| - 3];
    assert r[|r| - 2..] == tail[|tail| - 2..];
    assert r[..|r| - 6] == IntToString(year);
  }

  /** The time picker's text: `${hh}:${min}`, both padded to two digits. */
  function TimeText(hours: nat, minutes: nat): string {
    Padded2Pair(hours, ':', minutes)
  }

  /** A picked time gives exactly `HH:mm`, which reads back as the picked time. */
  lemma TimeTextRoundTrip(hours: nat, minutes: nat)
    requires hours < 24 && minutes < 60
    ensures var r := TimeText(hours, minutes);
      |r| == 5 && r[2] == ':' && AllDigits(r[..2]) && AllDigits(r[3..])
      && ParseNat(r[..2]) == hours && ParseNat(r[3..]) == minutes
  {
    Padded2PairRoundTrip(hours, ':', minutes);
  }

  class OnboardingPersonalDataScreen {
    var form: Form
    var loading: bool

    constructor ()
      ensures form == Form("", "", "", "") && !loading
    {
      form := Form("", "", "", "");
      loading := false;
    }

    /** `handleNext`, given what `savePersonalData` resolves to: returns how it ended
        and the data sent, if the checks let it through. */
    method HandleNext(validDate: string -> bool, validTime: string -> bool, saveReply: Outcome<Value>)
      returns (result: NextResult, sent: Option<OnboardingService.PersonalData>)
      modifies this
      ensures Validate(old(form), validDate, validTime).Some? ==>
                result == Blocked(Validate(old(form), validDate, validTime).value) && sent.None?
                && loading == old(loading)
      ensures Validate(old(form), validDate, validTime).None? ==>
                sent == Some(SentData(old(form))) && !loading
                && result == (if saveReply.Returned? then Advanced(FirstName(old(form).fullName)) else SaveFailed(SAVE_ERROR))
      ensures form == old(form)
    {
      var problem := Validate(form, validDate, validTime);
      if problem.Some? {
        return Blocked(problem.value), None;
      }
      loading := true;
      sent := Some(SentData(form));
      match saveReply {
        case Returned(_) => result := Advanced(FirstName(form.fullName));
        case Threw(_) => result := SaveFailed(SAVE_ERROR);
      }
      loading := false;
    }

    /** The date picker's confirm, with the picked date's year, month index and day. */
    method PickDate(year: int, monthIndex: nat, day: nat)
      modifies this
      ensures form == old(form).(birthDate := DateText(year, monthIndex, day)) && loading == old(loading)
    {
      form := form.(birthDate := DateText(year, monthIndex, day));
    }

    /** The time picker's confirm, with the picked hours and minutes. */
    method PickTime(hours: nat, minutes: nat)
      modifies this
      ensures form == old(form).(birthTime := TimeText(hours, minutes)) && loading == old(loading)
    {
      form := form.(birthTime := TimeText(hours, minutes));
    }
  }
}
