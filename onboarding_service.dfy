/** The onboarding flow (src/services/onboardingService.ts): a server-side onboarding
    session whose id is kept in the store under `onboarding_session_id`, the
    fire-and-forget steps that send answers tagged with it, the welcome message, and
    the final registration that ends the session. */
module OnboardingService {
  import opened Js
  import opened Http
  import opened Storage
  import ApiConfig

  const SESSION_ID_KEY := "onboarding_session_id"

  const START_ERROR := "Failed to start onboarding session"
  const COMPLETE_ERROR := "Failed to complete registration"
  const NOT_IMPLEMENTED := "Function not implemented."

  /** The personal-data form as sent; the birth time is optional. */
  datatype PersonalData = PersonalData(fullName: string, birthDate: string, birthPlace: string,
                                       birthTime: Option<string>)

  /** The service's operations that talk to the backend, as one vocabulary. */
  datatype Step =
    | Start
    | SaveTempleName(templeName: string)
    | SaveEmotionalState(emotionalState: string)
    | SaveIntention(intention: string)
    | SavePersonalData(data: PersonalData)
    | GenerateWelcome
    | CompleteRegistration(email: string, password: string)

  /** The four intermediate steps, which only send an answer. */
  predicate IsSaveStep(step: Step) {
    step.SaveTempleName? || step.SaveEmotionalState? || step.SaveIntention? || step.SavePersonalData?
  }

  /** The stored session id as it appears in a JSON body: the string, or null. */
  function SessionValue(sid: Option<string>): (v: Value)
    ensures sid.None? <==> v == JNull
    ensures sid.Some? ==> v == JStr(sid.value)
  {
    match sid
    case None => JNull
    case Some(s) => JStr(s)
  }

  /** `{ session_id, ...data }`: birth_time appears only when it is given. */
  function PersonalDataBody(sid: Option<string>, d: PersonalData): (body: map<string, Value>)
    ensures body.Keys == {"session_id", "full_name", "birth_date", "birth_place"}
                         + (if d.birthTime.Some? then {"birth_time"} else {})
    ensures body["session_id"] == SessionValue(sid) && body["full_name"] == JStr(d.fullName)
    ensures body["birth_date"] == JStr(d.birthDate) && body["birth_place"] == JStr(d.birthPlace)
    ensures d.birthTime.Some? ==> body["birth_time"] == JStr(d.birthTime.value)
  {
    var base := map["session_id" := SessionValue(sid), "full_name" := JStr(d.fullName),
                     "birth_date" := JStr(d.birthDate), "birth_place" := JStr(d.birthPlace)];
    match d.birthTime
    case None => base
    case Some(t) => base["birth_time" := JStr(t)]
  }

  /** Path and JSON body of each step's POST. */
  function StepPath(step: Step): string {
    match step
    case Start => "/onboarding/start"
    case SaveTempleName(_) => "/onboarding/temple"
    case SaveEmotionalState(_) => "/onboarding/emotional-state"
    case SaveIntention(_) => "/onboarding/intention"
    case SavePersonalData(_) => "/onboarding/personal-data"
    case GenerateWelcome => "/onboarding/generate-welcome"
    case CompleteRegistration(_, _) => "/onboarding/complete-registration"
  }

  function StepBody(step: Step, sid: Option<string>): Body {
    match step
    case Start => NoBody
    case SaveTempleName(t) => JsonBody(JObj(map["session_id" := SessionValue(sid), "temple_name" := JStr(t)]))
    case SaveEmotionalState(e) => JsonBody(JObj(map["session_id" := SessionValue(sid), "emotional_state" := JStr(e)]))
    case SaveIntention(i) => JsonBody(JObj(map["session_id" := SessionValue(sid), "intention" := JStr(i)]))
    case SavePersonalData(d) => JsonBody(JObj(PersonalDataBody(sid, d)))
    case GenerateWelcome => JsonBody(JObj(map["session_id" := SessionValue(sid)]))
    case CompleteRegistration(email, password) =>
      JsonBody(JObj(map["session_id" := SessionValue(sid), "email" := JStr(email), "password" := JStr(password)]))
  }

  /** The one request a step sends: a POST with the default JSON headers to the base
      URL of the moment, carrying the stored session id (except `Start`). */
  function StepRequest(baseUrl: string, step: Step, sid: Option<string>): (req: Request)
    ensures req.url == baseUrl + StepPath(step) && req.verb == POST
    ensures req.headers == ApiConfig.DEFAULT_HEADERS
    ensures step.Start? <==> req.body == NoBody
    ensures !step.Start? ==>
              req.body.JsonBody? && req.body.data.JObj?
              && "session_id" in req.body.data.fields
              && req.body.data.fields["session_id"] == SessionValue(sid)
  {
    Request(baseUrl + StepPath(step), POST, ApiConfig.DEFAULT_HEADERS, StepBody(step, sid))
  }

  /** `Failed to generate welcome message: <status> <body text or ''>` */
  function WelcomeErrorMessage(resp: Response): (msg: string)
    ensures Contains(msg, NatToString(resp.status))
    ensures resp.text.Some? ==> Contains(msg, resp.text.value)
  {
    var text := if resp.text.Some? then resp.text.value else "";
    var prefix := "Failed to generate welcome message: ";
    var msg := prefix + NatToString(resp.status) + " " + text;
    ContainsMiddle(prefix, NatToString(resp.status), " " + text);
    assert prefix + NatToString(resp.status) + (" " + text) == msg;
    ContainsMiddle(prefix + NatToString(resp.status) + " ", text, "");
    assert prefix + NatToString(resp.status) + " " + text + "" == msg;
    msg
  }

  /** What a step does once its fetch has an outcome: the value it resolves to (the
      save steps resolve to `undefined`) or the error it throws, and the new store.
      Only `Start` writes, and only a successful `CompleteRegistration` removes, the
      session key; no other key is ever touched. */
  function Effect(step: Step, o: FetchOutcome, items: map<string, string>)
    : (res: (Outcome<Value>, map<string, string>))
    ensures o.Rejected? ==> res == (Threw(o.error), items)
    ensures res.1 == items
            || (step.Start? && res.0.Returned? && res.0.value.JStr? && res.1 == items[SESSION_ID_KEY := res.0.value.s])
            || (step.CompleteRegistration? && res.0.Returned? && res.1 == items - {SESSION_ID_KEY})
  {
    match o
    case Rejected(e) => (Threw(e), items)
    case Answered(resp) =>
      match step
      case Start =>
        if !IsOk(resp) then (Fail(START_ERROR), items)
        else if resp.json.None? then (Threw(PARSE_FAILURE), items)
        else if resp.json.value == JNull then (Threw(NULL_ACCESS), items)
        else
          var sid := Field(resp.json.value, "session_id");
          if sid.JStr? then (Returned(sid), items[SESSION_ID_KEY := sid.s]) else (Threw(NOT_A_STRING), items)
      case GenerateWelcome =>
        if !IsOk(resp) then (Fail(WelcomeErrorMessage(resp)), items)
        else if resp.json.None? then (Threw(PARSE_FAILURE), items)
        else if resp.json.value == JNull then (Threw(NULL_ACCESS), items)
        else (Returned(Field(resp.json.value, "welcome_message")), items)
      case CompleteRegistration(_, _) =>
        if resp.json.None? then (Threw(PARSE_FAILURE), items)
        else if !IsOk(resp) then
          match Prop(resp.json.value, "detail")
          case None => (Threw(NULL_ACCESS), items)
          case Some(detail) => (Fail(OrElse(detail, COMPLETE_ERROR)), items)
        else (Returned(resp.json.value), items - {SESSION_ID_KEY})
      case _ => (Returned(Undefined), items)
  }

  /** `startOnboarding`: a non-ok status throws and stores nothing; success stores the
      returned string `session_id` under the session key and resolves to it. */
  lemma StartStoresSession(o: FetchOutcome, items: map<string, string>)
    ensures var (r, items') := Effect(Start, o, items);
      (o.Answered? && !IsOk(o.response) ==> r == Fail(START_ERROR) && items' == items)
      && (r.Returned? <==> o.Answered? && IsOk(o.response) && o.response.json.Some?
                           && o.response.json.value != JNull
                           && Field(o.response.json.value, "session_id").JStr?)
      && (r.Returned? ==>
            r.value == Field(o.response.json.value, "session_id")
            && items' == items[SESSION_ID_KEY := r.value.s])
      && (r.Threw? ==> items' == items)
  {
  }

  /** The four save steps are fire-and-forget: whatever the status they resolve, they
      never touch the store, and they throw only when the fetch itself rejects. */
  lemma SaveStepsFireAndForget(step: Step, o: FetchOutcome, items: map<string, string>)
    requires IsSaveStep(step)
    ensures var (r, items') := Effect(step, o, items);
      items' == items && (r.Threw? <==> o.Rejected?) && (o.Answered? ==> r == Returned(Undefined))
  {
  }

  /** `getWelcomeMessage`: a non-ok status throws a message naming the status and the
      body text; an ok status with a JSON object body resolves to `welcome_message`. */
  lemma WelcomeResult(o: FetchOutcome, items: map<string, string>)
    ensures var (r, items') := Effect(GenerateWelcome, o, items);
      items' == items
      && (o.Answered? && !IsOk(o.response) ==>
            r == Fail(WelcomeErrorMessage(o.response))
            && Contains(r.error.message, NatToString(o.response.status)))
      && (o.Answered? && IsOk(o.response) && o.response.json.Some? && o.response.json.value.JObj? ==>
            r == Returned(Field(o.response.json.value, "welcome_message")))
  {
  }

  /** `completeRegistration`: the session key is removed exactly when the call
      succeeds, which needs an ok status; a non-ok status throws `detail` or the
      default message and keeps the key. */
  lemma CompleteEndsSession(email: string, password: string, o: FetchOutcome, items: map<string, string>)
    ensures var (r, items') := Effect(CompleteRegistration(email, password), o, items);
      (r.Returned? <==> o.Answered? && IsOk(o.response) && o.response.json.Some?)
      && (r.Returned? ==> r.value == o.response.json.value && items' == items - {SESSION_ID_KEY})
      && (r.Threw? ==> items' == items)
      && (o.Answered? && !IsOk(o.response) && o.response.json.Some? && o.response.json.value.JObj? ==>
            r == Fail(OrElse(Field(o.response.json.value, "detail"), COMPLETE_ERROR)))
  {
  }

  /** A sequence of steps, each paired with the outcome of its fetch, applied to the store. */
  function Run(trace: seq<(Step, FetchOutcome)>, items: map<string, string>): map<string, string>
    decreases |trace|
  {
    if trace == [] then items
    else Run(trace[1..], Effect(trace[0].0, trace[0].1, items).1)
  }

  /** No key other than the session key is ever changed by onboarding. */
  lemma {:induction false} RunTouchesOnlySessionKey(trace: seq<(Step, FetchOutcome)>, items: map<string, string>)
    ensures Run(trace, items) - {SESSION_ID_KEY} == items - {SESSION_ID_KEY}
    decreases |trace|
  {
    if trace != [] {
      var next := Effect(trace[0].0, trace[0].1, items).1;
      assert next - {SESSION_ID_KEY} == items - {SESSION_ID_KEY};
      RunTouchesOnlySessionKey(trace[1..], next);
    }
  }

  /** Without a `Start`, no session id appears in the store. */
  lemma {:induction false} NoStartNoSession(trace: seq<(Step, FetchOutcome)>, items: map<string, string>)
    requires forall i :: 0 <= i < |trace| ==> !trace[i].0.Start?
    requires SESSION_ID_KEY !in items
    ensures SESSION_ID_KEY !in Run(trace, items)
    decreases |trace|
  {
    if trace != [] {
      NoStartNoSession(trace[1..], Effect(trace[0].0, trace[0].1, items).1);
    }
  }

  /** Without a `Start` or a `CompleteRegistration`, the stored session id stays as it
      is, whatever the steps' outcomes and in whatever order they run. */
  lemma {:induction false} SessionIdStable(trace: seq<(Step, FetchOutcome)>, items: map<string, string>)
    requires forall i :: 0 <= i < |trace| ==> !trace[i].0.Start? && !trace[i].0.CompleteRegistration?
    ensures Lookup(Run(trace, items), SESSION_ID_KEY) == Lookup(items, SESSION_ID_KEY)
    decreases |trace|
  {
    if trace != [] {
      SessionIdStable(trace[1..], Effect(trace[0].0, trace[0].1, items).1);
    }
  }

  /** The module-level `saveIntention` export is a stub that always throws. */
  function StubSaveIntention(intention: string): (r: Outcome<()>)
    ensures r.Threw? && r.error.message == NOT_IMPLEMENTED
  {
    Fail(NOT_IMPLEMENTED)
  }

  /** The singleton service, on the shared configuration, store and network. */
  class OnboardingService {
    const config: ApiConfig.Config
    const storage: AsyncStorage
    const net: Network

    constructor (config: ApiConfig.Config, storage: AsyncStorage, net: Network)
      ensures this.config == config && this.storage == storage && this.net == net
    {
      this.config := config;
      this.storage := storage;
      this.net := net;
    }

    method GetSessionId() returns (sid: Option<string>)
      ensures sid == Lookup(storage.items, SESSION_ID_KEY)
    {
      sid := storage.GetItem(SESSION_ID_KEY);
    }

    /** `startOnboarding()` */
    method StartOnboarding() returns (r: Outcome<Value>)
      modifies storage, net
      ensures var req := StepRequest(config.baseUrl, Start, Lookup(old(storage.items), SESSION_ID_KEY));
        net.log == old(net.log) + [req] && (r, storage.items) == Effect(Start, net.server(req), old(storage.items))
    {
      var req := Http.Request(config.baseUrl + "/onboarding/start", POST, ApiConfig.DEFAULT_HEADERS, NoBody);
      var o := net.Fetch(req);
      match o {
        case Rejected(e) =>
          r := Threw(e);
        case Answered(resp) =>
          if !IsOk(resp) {
            r := Fail(START_ERROR);
            return;
          }
          if resp.json.None? {
            r := Threw(PARSE_FAILURE);
            return;
          }
          var data := resp.json.value;
          if data == JNull {
            r := Threw(NULL_ACCESS);
            return;
          }
          var err := storage.SetValue(SESSION_ID_KEY, Field(data, "session_id"));
          if err.Some? {
            r := Threw(err.value);
            return;
          }
          r := Returned(Field(data, "session_id"));
      }
    }

    /** One of the four `save*` steps: read the session id, send, ignore the status. */
    method Save(step: Step) returns (r: Outcome<Value>)
      requires IsSaveStep(step)
      modifies net
      ensures var req := StepRequest(config.baseUrl, step, Lookup(storage.items, SESSION_ID_KEY));
        net.log == old(net.log) + [req] && (r, storage.items) == Effect(step, net.server(req), storage.items)
    {
      var sid := GetSessionId();
      var o := net.Fetch(Http.Request(config.baseUrl + StepPath(step), POST, ApiConfig.DEFAULT_HEADERS, StepBody(step, sid)));
      match o {
        case Rejected(e) => r := Threw(e);
        case Answered(_) => r := Returned(Undefined);
      }
    }

    /** `saveTempleName(templeName)` */
    method SaveTempleNameStep(templeName: string) returns (r: Outcome<Value>)
      modifies net
      ensures var req := StepRequest(config.baseUrl, SaveTempleName(templeName), Lookup(storage.items, SESSION_ID_KEY));
        net.log == old(net.log) + [req] && (r, storage.items) == Effect(SaveTempleName(templeName), net.server(req), storage.items)
    {
      r := Save(SaveTempleName(templeName));
    }

    /** `saveEmotionalState(emotionalState)` */
    method SaveEmotionalStateStep(emotionalState: string) returns (r: Outcome<Value>)
      modifies net
      ensures var req := StepRequest(config.baseUrl, SaveEmotionalState(emotionalState), Lookup(storage.items, SESSION_ID_KEY));
        net.log == old(net.log) + [req] && (r, storage.items) == Effect(SaveEmotionalState(emotionalState), net.server(req), storage.items)
    {
      r := Save(SaveEmotionalState(emotionalState));
    }

    /** `saveIntention(intention)`, the service method */
    method SaveIntentionStep(intention: string) returns (r: Outcome<Value>)
      modifies net
      ensures var req := StepRequest(config.baseUrl, SaveIntention(intention), Lookup(storage.items, SESSION_ID_KEY));
        net.log == old(net.log) + [req] && (r, storage.items) == Effect(SaveIntention(intention), net.server(req), storage.items)
    {
      r := Save(SaveIntention(intention));
    }

    /** `savePersonalData(data)` */
    method SavePersonalDataStep(data: PersonalData) returns (r: Outcome<Value>)
      modifies net
      ensures var req := StepRequest(config.baseUrl, SavePersonalData(data), Lookup(storage.items, SESSION_ID_KEY));
        net.log == old(net.log) + [req] && (r, storage.items) == Effect(SavePersonalData(data), net.server(req), storage.items)
    {
      r := Save(SavePersonalData(data));
    }

    /** `getWelcomeMessage()`: sent even when no session id is stored (it is then null). */
    method GetWelcomeMessage() returns (r: Outcome<Value>)
      modifies net
      ensures var req := StepRequest(config.baseUrl, GenerateWelcome, Lookup(storage.items, SESSION_ID_KEY));
        net.log == old(net.log) + [req] && (r, storage.items) == Effect(GenerateWelcome, net.server(req), storage.items)
    {
      var sid := GetSessionId();
      var o := net.Fetch(Http.Request(config.baseUrl + "/onboarding/generate-welcome", POST,
                                      ApiConfig.DEFAULT_HEADERS, StepBody(GenerateWelcome, sid)));
      match o {
        case Rejected(e) =>
          r := Threw(e);
        case Answered(resp) =>
          if !IsOk(resp) {
            r := Fail(WelcomeErrorMessage(resp));
            return;
          }
          if resp.json.None? {
            r := Threw(PARSE_FAILURE);
            return;
          }
          if resp.json.value == JNull {
            r := Threw(NULL_ACCESS);
            return;
          }
          r := Returned(Field(resp.json.value, "welcome_message"));
      }
    }

    /** `completeRegistration(email, password)`: the body is read before the status. */
    method CompleteRegistrationStep(email: string, password: string) returns (r: Outcome<Value>)
      modifies storage, net
      ensures var req := StepRequest(config.baseUrl, CompleteRegistration(email, password),
                                     Lookup(old(storage.items), SESSION_ID_KEY));
        net.log == old(net.log) + [req]
        && (r, storage.items) == Effect(CompleteRegistration(email, password), net.server(req), old(storage.items))
    {
      var sid := GetSessionId();
      var o := net.Fetch(Http.Request(config.baseUrl + "/onboarding/complete-registration", POST,
                                      ApiConfig.DEFAULT_HEADERS, StepBody(CompleteRegistration(email, password), sid)));
      match o {
        case Rejected(e) =>
          r := Threw(e);
        case Answered(resp) =>
          if resp.json.None? {
            r := Threw(PARSE_FAILURE);
            return;
          }
          var data := resp.json.value;
          if !IsOk(resp) {
            match Prop(data, "detail") {
              case None => r := Threw(NULL_ACCESS);
              case Some(detail) => r := Fail(OrElse(detail, COMPLETE_ERROR));
            }
            return;
          }
          storage.RemoveItem(SESSION_ID_KEY);
          r := Returned(data);
      }
    }
  }
}
