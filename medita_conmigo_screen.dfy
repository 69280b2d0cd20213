/** The guided-meditation screen (src/screens/MeditaConmigoScreen.tsx): starting a
    session fetches guidance and background music, with fallbacks for both; the
    session then counts down like the silence screen and can be stopped or completed. */
module MeditaConmigoScreen {
  import opened Js
  import Countdown

  /** A meditation type: its name, its length in minutes and its description. */
  datatype MeditationSession = MeditationSession(name: string, duration: nat, description: string)

  const MEDITATION_TYPES: seq<MeditationSession> := [
    MeditationSession("Respiración Consciente", 5, "Enfócate en tu respiración natural para encontrar calma interior"),
    MeditationSession("Relajación Corporal", 10, "Libera la tensión de todo tu cuerpo progresivamente"),
    MeditationSession("Mindfulness", 15, "Observa tus pensamientos sin juzgar, cultivando presencia"),
    MeditationSession("Gratitud", 8, "Cultiva sentimientos de agradecimiento y apreciación"),
    MeditationSession("Compasión", 12, "Desarrolla amor y compasión hacia ti mismo y otros"),
    MeditationSession("Visualización", 20, "Crea imágenes mentales para la sanación y el bienestar")
  ]

  const FALLBACK_TRACKS: seq<string> := [
    "Sonidos Relajantes",
    "Música Ambient para Meditación",
    "Sonidos de la Naturaleza",
    "Frecuencias Curativas",
    "Mantras Instrumentales"
  ]

  const GUIDANCE_OPENING := "Bienvenido a tu sesión de "
  const GUIDANCE_SETTLE := ".\n\nEncuentra una posición cómoda, ya sea sentado o acostado. Cierra los ojos suavemente y permite que tu mente se relaje.\n\n"
  const GUIDANCE_BREATHE := "\n\nRespira naturalmente y permite que cada exhalación te lleve más profundo hacia un estado de calma y serenidad.\n\nDurante estos "
  const GUIDANCE_CLOSING := " minutos, date permiso para simplemente ser. No hay nada que tengas que hacer, solo estar presente en este momento."

  /** `setDefaultGuidance`'s text. */
  function DefaultGuidance(m: MeditationSession): string {
    GUIDANCE_OPENING + m.name + GUIDANCE_SETTLE + m.description + GUIDANCE_BREATHE
    + NatToString(m.duration) + GUIDANCE_CLOSING
  }

  /** The default guidance names the session, repeats its description and states its
      length in minutes. */
  lemma DefaultGuidanceMentions(m: MeditationSession)
    ensures var g := DefaultGuidance(m);
      Contains(g, m.name) && Contains(g, m.description) && Contains(g, NatToString(m.duration))
  {
    InterleaveContains(GUIDANCE_OPENING, m.name, GUIDANCE_SETTLE, m.description, GUIDANCE_BREATHE,
                       NatToString(m.duration), GUIDANCE_CLOSING);
  }

  /** Text woven from fixed parts and three inserts contains each insert. */
  lemma InterleaveContains(p0: string, x: string, p1: string, y: string, p2: string, z: string, p3: string)
    ensures var g := p0 + x + p1 + y + p2 + z + p3;
      Contains(g, x) && Contains(g, y) && Contains(g, z)
  {
    var g := p0 + x + p1 + y + p2 + z + p3;
    ContainsMiddle(p0, x, p1 + y + p2 + z + p3);
    assert p0 + x + (p1 + y + p2 + z + p3) == g;
    ContainsMiddle(p0 + x + p1, y, p2 + z + p3);
    assert p0 + x + p1 + y + (p2 + z + p3) == g;
    ContainsMiddle(p0 + x + p1 + y + p2, z, p3);
  }

  /** `response && response.text`: the guidance text of a reply, when it has one. */
  function ReplyText(reply: Outcome<Value>): (t: Option<Value>)
    ensures t.Some? <==> reply.Returned? && Truthy(reply.value) && reply.value.JObj?
                         && "text" in reply.value.fields && Truthy(reply.value.fields["text"])
    ensures t.Some? ==> t.value == reply.value.fields["text"]
  {
    if reply.Returned? && Truthy(reply.value) then
      match Prop(reply.value, "text")
      case Some(text) => if Truthy(text) then Some(text) else None
      case None => None
    else None
  }

  /** The guidance shown: the reply's text when it has one; the default text when it
      has none or the call threw. */
  function GuidanceAfter(m: MeditationSession, guidanceReply: Outcome<Value>): (g: string)
    ensures ReplyText(guidanceReply).Some? ==> g == ToJsString(ReplyText(guidanceReply).value)
    ensures ReplyText(guidanceReply).None? ==> g == DefaultGuidance(m)
  {
    match ReplyText(guidanceReply)
    case Some(text) => ToJsString(text)
    case None => DefaultGuidance(m)
  }

  /** The track list once the guidance call has returned and the music call has
      resolved: the five fallback tracks if it threw; a reply carrying a `tracks` list
      sets that list; any other reply keeps the old one. */
  function MusicAfter(previous: seq<string>, musicReply: Outcome<Value>): (t: seq<string>)
    ensures musicReply.Threw? ==> t == FALLBACK_TRACKS
    ensures musicReply.Returned? ==>
              match Prop(musicReply.value, "tracks")
              case Some(JArr(items)) => |t| == |items| && forall i :: 0 <= i < |t| ==> t[i] == ToJsString(items[i])
              case _ => t == previous
  {
    match musicReply
    case Threw(_) => FALLBACK_TRACKS
    case Returned(response) =>
      match Prop(response, "tracks")
      case Some(JArr(items)) => seq(|items|, i requires 0 <= i < |items| => ToJsString(items[i]))
      case _ => previous
  }

  /** The track list after a start. The music call is made only once the guidance call
      has returned, so a guidance call that throws sets the fallback tracks whatever
      the music call would have done. */
  function TracksAfter(previous: seq<string>, guidanceReply: Outcome<Value>, musicReply: Outcome<Value>): (t: seq<string>)
    ensures guidanceReply.Threw? || musicReply.Threw? ==> t == FALLBACK_TRACKS
    ensures guidanceReply.Returned? ==> t == MusicAfter(previous, musicReply)
  {
    if guidanceReply.Threw? then FALLBACK_TRACKS else MusicAfter(previous, musicReply)
  }

  /** The tracks listed on screen: the first three at most, in order. */
  function DisplayedTracks(tracks: seq<string>): (shown: seq<string>)
    ensures |shown| <= 3 && shown <= tracks
    ensures |tracks| >= 3 ==> |shown| == 3
    ensures |tracks| < 3 ==> shown == tracks
  {
    if |tracks| <= 3 then tracks else tracks[..3]
  }

  class MeditaConmigoScreen {
    var currentSession: Option<MeditationSession>
    var isActive: bool
    var timer: nat
    var guidance: string
    var loading: bool
    var musicTracks: seq<string>

    constructor ()
      ensures currentSession == None && !isActive && timer == 0 && guidance == ""
      ensures !loading && musicTracks == []
    {
      currentSession := None;
      isActive := false;
      timer := 0;
      guidance := "";
      loading := false;
      musicTracks := [];
    }

    function ClockState(): Countdown.Clock
      reads this
    {
      Countdown.Clock(isActive, timer)
    }

    /** `startMeditation(m)`, given what the guidance call and the music call resolve
        to; the session starts whether or not they fail. */
    method StartMeditation(m: MeditationSession, guidanceReply: Outcome<Value>, musicReply: Outcome<Value>)
      modifies this
      ensures currentSession == Some(m) && timer == m.duration * 60
      ensures isActive && !loading
      ensures guidance == GuidanceAfter(m, guidanceReply)
      ensures musicTracks == TracksAfter(old(musicTracks), guidanceReply, musicReply)
    {
      loading := true;
      currentSession := Some(m);
      timer := m.duration * 60;
      match guidanceReply {
        case Threw(_) =>
          SetDefaultGuidance(m);
          GenerateFallbackMusic();
        case Returned(_) =>
          ShowGuidance(m, guidanceReply);
          ApplyMusic(musicReply);
      }
      loading := false;
      isActive := true;
    }

    /** The guidance call has returned: its text, or the default guidance. */
    method ShowGuidance(m: MeditationSession, guidanceReply: Outcome<Value>)
      modifies this
      ensures guidance == GuidanceAfter(m, guidanceReply)
      ensures currentSession == old(currentSession) && isActive == old(isActive) && timer == old(timer)
      ensures loading == old(loading) && musicTracks == old(musicTracks)
    {
      match ReplyText(guidanceReply) {
        case Some(text) => guidance := ToJsString(text);
        case None => SetDefaultGuidance(m);
      }
    }

    /** The music call has resolved: its tracks when the reply carries a list. */
    method ApplyMusic(musicReply: Outcome<Value>)
      modifies this
      ensures musicTracks == MusicAfter(old(musicTracks), musicReply)
      ensures currentSession == old(currentSession) && isActive == old(isActive) && timer == old(timer)
      ensures loading == old(loading) && guidance == old(guidance)
    {
      match musicReply {
        case Threw(_) =>
          GenerateFallbackMusic();
        case Returned(musicResponse) =>
          if Truthy(musicResponse) {
            match Prop(musicResponse, "tracks") {
              case Some(JArr(items)) =>
                musicTracks := seq(|items|, i requires 0 <= i < |items| => ToJsString(items[i]));
              case _ =>
            }
          }
      }
    }

    method SetDefaultGuidance(m: MeditationSession)
      modifies this
      ensures guidance == DefaultGuidance(m)
      ensures currentSession == old(currentSession) && isActive == old(isActive) && timer == old(timer)
      ensures loading == old(loading) && musicTracks == old(musicTracks)
    {
      guidance := DefaultGuidance(m);
    }

    method GenerateFallbackMusic()
      modifies this
      ensures musicTracks == FALLBACK_TRACKS
      ensures currentSession == old(currentSession) && isActive == old(isActive) && timer == old(timer)
      ensures loading == old(loading) && guidance == old(guidance)
    {
      musicTracks := FALLBACK_TRACKS;
    }

    /** One run of the countdown effect (one elapsed second). */
    method Tick()
      modifies this
      ensures ClockState() == Countdown.Tick(old(ClockState()))
      ensures currentSession == old(currentSession) && guidance == old(guidance)
      ensures musicTracks == old(musicTracks) && loading == old(loading)
    {
      if isActive && timer > 0 {
        timer := timer - 1;
      } else if timer == 0 && isActive {
        CompleteMeditation();
      }
    }

    /** `stopMeditation`: the dialog's "Detener" clears the whole session; "Continuar"
        leaves it running. */
    method StopMeditation(confirmed: bool)
      modifies this
      ensures confirmed ==> !isActive && timer == 0 && currentSession == None && guidance == "" && musicTracks == []
      ensures !confirmed ==> isActive == old(isActive) && timer == old(timer) && currentSession == old(currentSession)
                             && guidance == old(guidance) && musicTracks == old(musicTracks)
      ensures loading == old(loading)
    {
      if confirmed {
        isActive := false;
        timer := 0;
        currentSession := None;
        guidance := "";
        musicTracks := [];
      }
    }

    /** `completeMeditation`: the session stops; its content stays until the
        completion dialog is acknowledged. */
    method CompleteMeditation()
      modifies this
      ensures !isActive && timer == old(timer) && currentSession == old(currentSession)
      ensures guidance == old(guidance) && musicTracks == old(musicTracks) && loading == old(loading)
    {
      isActive := false;
    }

    /** The completion dialog's "Finalizar". */
    method AcknowledgeCompletion()
      modifies this
      ensures currentSession == None && guidance == "" && musicTracks == []
      ensures isActive == old(isActive) && timer == old(timer) && loading == old(loading)
    {
      currentSession := None;
      guidance := "";
      musicTracks := [];
    }
  }
}
