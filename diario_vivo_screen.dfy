/** The diary screen (src/screens/DiarioVivoScreen.tsx): a newest-first list of entries,
    each with an AI reflection or a fallback one, kept in the store under
    `diario_entries` whenever the list is non-empty. */
module DiarioVivoScreen {
  import opened Js
  import opened Storage

  const ENTRIES_KEY := "diario_entries"

  /** An entry; `id` and `timestamp` both come from the clock at save time. */
  datatype DiaryEntry = DiaryEntry(id: int, text: string, reflection: string, timestamp: int)

  const FALLBACK_REFLECTIONS: seq<string> := [
    "Tu reflexión es valiosa. Cada palabra escrita es un paso hacia el autoconocimiento y el crecimiento personal. Continúa explorando tus pensamientos con curiosidad y compasión.",
    "Escribir sobre nuestros pensamientos y sentimientos es un acto de valentía. Te felicito por tomarte este tiempo para conectar contigo mismo/a.",
    "Cada entrada en tu diario es una semilla de sabiduría personal. Con el tiempo, estas reflexiones te ayudarán a ver patrones y crecimiento en tu vida.",
    "Tu honestidad contigo mismo/a es admirable. Estos momentos de introspección son fundamentales para tu bienestar emocional y mental.",
    "Al escribir tus pensamientos, estás creando un espacio sagrado para tu crecimiento personal. Cada reflexión es un regalo que te das a ti mismo/a."
  ]

  /** The reflection of a new entry: `response.text` when the call returned a
      non-null body with a truthy `text`; otherwise, also when the call threw or the
      body was null, the fallback at position `pick` (the random choice). */
  function Reflection(reply: Outcome<Value>, pick: nat): (r: string)
    requires pick < |FALLBACK_REFLECTIONS|
    ensures (reply.Returned? && Prop(reply.value, "text").Some? && Truthy(Prop(reply.value, "text").value))
            ==> r == ToJsString(Prop(reply.value, "text").value)
    ensures !(reply.Returned? && Prop(reply.value, "text").Some? && Truthy(Prop(reply.value, "text").value))
            ==> r == FALLBACK_REFLECTIONS[pick]
  {
    match reply
    case Threw(_) => FALLBACK_REFLECTIONS[pick]
    case Returned(response) =>
      match Prop(response, "text")
      case None => FALLBACK_REFLECTIONS[pick]
      case Some(text) => OrElse(text, FALLBACK_REFLECTIONS[pick])
  }

  /** `prev.filter(entry => entry.id !== id)` */
  function RemoveById(entries: seq<DiaryEntry>, id: int): (kept: seq<DiaryEntry>)
    ensures |kept| <= |entries|
    ensures forall i :: 0 <= i < |kept| ==> kept[i].id != id && kept[i] in entries
    decreases |entries|
  {
    if entries == [] then []
    else if entries[0].id == id then RemoveById(entries[1..], id)
    else [entries[0]] + RemoveById(entries[1..], id)
  }

  /** Filtering distributes over concatenation, so the entries kept stay in their
      relative order. */
  lemma {:induction false} RemoveByIdAppend(xs: seq<DiaryEntry>, ys: seq<DiaryEntry>, id: int)
    ensures RemoveById(xs + ys, id) == RemoveById(xs, id) + RemoveById(ys, id)
    decreases |xs|
  {
    if xs != [] {
      assert (xs + ys)[1..] == xs[1..] + ys;
      RemoveByIdAppend(xs[1..], ys, id);
    } else {
      assert xs + ys == ys;
    }
  }

  /** Exactly the entries with that id are removed: every entry with another id is kept,
      as many times as it occurs. */
  lemma {:induction false} RemoveByIdKeepsOthers(entries: seq<DiaryEntry>, id: int, e: DiaryEntry)
    requires e.id != id
    ensures multiset(RemoveById(entries, id))[e] == multiset(entries)[e]
    decreases |entries|
  {
    if entries != [] {
      var rest := RemoveById(entries[1..], id);
      RemoveByIdKeepsOthers(entries[1..], id, e);
      assert entries == [entries[0]] + entries[1..];
      assert multiset(entries) == multiset([entries[0]]) + multiset(entries[1..]);
      if entries[0].id != id {
        assert RemoveById(entries, id) == [entries[0]] + rest;
        assert multiset(RemoveById(entries, id)) == multiset([entries[0]]) + multiset(rest);
      }
    }
  }

  /** An id no entry carries removes nothing. */
  lemma {:induction false} RemoveAbsentId(entries: seq<DiaryEntry>, id: int)
    requires forall i :: 0 <= i < |entries| ==> entries[i].id != id
    ensures RemoveById(entries, id) == entries
    decreases |entries|
  {
    if entries != [] {
      RemoveAbsentId(entries[1..], id);
      assert entries == [entries[0]] + entries[1..];
    }
  }

  /** Deleting a just-added entry, whose id no older entry shares, restores the list. */
  lemma PrependThenDelete(e: DiaryEntry, entries: seq<DiaryEntry>)
    requires forall i :: 0 <= i < |entries| ==> entries[i].id != e.id
    ensures RemoveById([e] + entries, e.id) == entries
  {
    assert ([e] + entries)[1..] == entries;
    RemoveAbsentId(entries, e.id);
  }

  /** The persistence effect: the list is written (by `encode`, JSON.stringify) only
      while it is non-empty, so an emptied list leaves the previous value stored. */
  function Persisted(items: map<string, string>, entries: seq<DiaryEntry>,
                     encode: seq<DiaryEntry> -> string): (items': map<string, string>)
    ensures |entries| > 0 ==> items' == items[ENTRIES_KEY := encode(entries)]
    ensures |entries| == 0 ==> items' == items
  {
    if |entries| > 0 then items[ENTRIES_KEY := encode(entries)] else items
  }

  class DiarioVivoScreen {
    const storage: AsyncStorage
    var entries: seq<DiaryEntry>
    var newEntry: string
    var loading: bool
    var initialLoading: bool

    constructor (storage: AsyncStorage)
      ensures this.storage == storage && entries == [] && newEntry == "" && !loading && initialLoading
    {
      this.storage := storage;
      entries := [];
      newEntry := "";
      loading := false;
      initialLoading := true;
    }

    /** `saveEntries`, the effect that runs after every change of the list. */
    method EntriesChanged(encode: seq<DiaryEntry> -> string)
      modifies storage
      ensures storage.items == Persisted(old(storage.items), entries, encode)
    {
      if |entries| > 0 {
        storage.SetItem(ENTRIES_KEY, encode(entries));
      }
    }

    /** `loadEntries`, with JSON.parse plus the date revival as `decode` (None where it
        throws). Nothing stored, an empty string or a failed decode leave the list
        as it was (empty, on mount); errors do not escape. A loaded list is then
        written back by the persistence effect. */
    method LoadEntries(decode: string -> Option<seq<DiaryEntry>>, encode: seq<DiaryEntry> -> string)
      modifies this, storage
      ensures var saved := Lookup(old(storage.items), ENTRIES_KEY);
        var loaded := saved.Some? && saved.value != "" && decode(saved.value).Some?;
        entries == (if loaded then decode(saved.value).value else old(entries))
        && storage.items == (if loaded then Persisted(old(storage.items), entries, encode) else old(storage.items))
      ensures !initialLoading && newEntry == old(newEntry) && loading == old(loading)
    {
      var saved := storage.GetItem(ENTRIES_KEY);
      if saved.Some? && saved.value != "" {
        var parsed := decode(saved.value);
        if parsed.Some? {
          entries := parsed.value;
          EntriesChanged(encode);
        }
      }
      initialLoading := false;
    }

    /** `saveEntry`, given what the reflection call resolves to, the clock reading
        `now` and the fallback choice `pick`. Blank input does nothing; otherwise the
        trimmed text is added at the front, with or without an AI reflection. */
    method SaveEntry(reply: Outcome<Value>, now: int, pick: nat, encode: seq<DiaryEntry> -> string)
      requires pick < |FALLBACK_REFLECTIONS|
      modifies this, storage
      ensures IsBlank(old(newEntry)) ==>
                entries == old(entries) && newEntry == old(newEntry) && loading == old(loading)
      ensures !IsBlank(old(newEntry)) ==>
                entries == [DiaryEntry(now, Trim(old(newEntry)), Reflection(reply, pick), now)] + old(entries)
                && newEntry == "" && !loading
      ensures storage.items == if IsBlank(old(newEntry)) then old(storage.items)
                               else Persisted(old(storage.items), entries, encode)
      ensures initialLoading == old(initialLoading)
    {
      var text := newEntry;
      if IsBlank(text) {
        return;
      }
      loading := true;
      var entryText := Trim(text);
      newEntry := "";
      var reflection := Reflection(reply, pick);
      entries := [DiaryEntry(now, entryText, reflection, now)] + entries;
      EntriesChanged(encode);
      loading := false;
    }

    /** `deleteEntry(id)`: the dialog's "Eliminar" removes the entries with that id;
        "Cancelar" changes nothing. */
    method DeleteEntry(id: int, confirmed: bool, encode: seq<DiaryEntry> -> string)
      modifies this, storage
      ensures confirmed ==> entries == RemoveById(old(entries), id)
                            && storage.items == Persisted(old(storage.items), entries, encode)
      ensures !confirmed ==> entries == old(entries) && storage.items == old(storage.items)
      ensures newEntry == old(newEntry) && loading == old(loading) && initialLoading == old(initialLoading)
    {
      if confirmed {
        entries := RemoveById(entries, id);
        EntriesChanged(encode);
      }
    }
  }
}
