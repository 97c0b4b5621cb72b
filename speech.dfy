/**
 * The speech-synthesis hook: the Japanese voices among those the browser
 * offers, the choice of a voice on load (the persisted name if it is
 * offered, else the first Japanese voice), and `speak`, `stop` and
 * `selectVoice`. The browser's voice list is a parameter, the persisted
 * name an `Option<string>` field, and the calls made to the platform's
 * synthesiser are recorded in order.
 */
module Speech {
  import opened Wrappers
  import opened Text

  datatype Voice = Voice(name: string, lang: string)

  /** A call the hook makes on the platform synthesiser. */
  datatype EngineCall = Cancel | Utter(text: string, voice: Voice, lang: string)

  /** `voice.lang.startsWith('ja')` */
  predicate IsJapanese(v: Voice)
    ensures IsJapanese(v) <==> |v.lang| >= 2 && v.lang[0] == 'j' && v.lang[1] == 'a'
  {
    StartsWith(v.lang, "ja")
  }

  /** `availableVoices.filter(voice => voice.lang.startsWith('ja'))` */
  function JapaneseVoices(available: seq<Voice>): (r: seq<Voice>)
    ensures |r| <= |available|
    ensures forall v :: v in r <==> v in available && IsJapanese(v)
  {
    if available == [] then []
    else (if IsJapanese(available[0]) then [available[0]] else []) + JapaneseVoices(available[1..])
  }

  /** The filter keeps the original order: filtering a concatenation concatenates the filtered parts. */
  lemma {:induction false} JapaneseVoicesAppend(a: seq<Voice>, b: seq<Voice>)
    ensures JapaneseVoices(a + b) == JapaneseVoices(a) + JapaneseVoices(b)
  {
    if a != [] {
      assert (a + b)[1..] == a[1..] + b;
      JapaneseVoicesAppend(a[1..], b);
    } else {
      assert a + b == b;
    }
  }

  /** `voices.find(v => v.name === name)`, as the index of the first voice with that name. */
  function FindByName(voices: seq<Voice>, name: string): (r: Option<nat>)
    ensures r.Some? ==> r.value < |voices| && voices[r.value].name == name
    ensures r.Some? ==> forall j :: 0 <= j < r.value ==> voices[j].name != name
    ensures r.None? ==> forall j :: 0 <= j < |voices| ==> voices[j].name != name
  {
    if voices == [] then None
    else if voices[0].name == name then Some(0)
    else match FindByName(voices[1..], name)
      case None => None
      case Some(i) => Some(i + 1)
  }

  /** Some voice in the list carries this name. */
  predicate Offers(voices: seq<Voice>, name: string) {
    exists i :: 0 <= i < |voices| && voices[i].name == name
  }

  /**
   * The voice picked on load: the first voice named by the persisted name when
   * that name is non-empty (an empty string is falsy) and offered, otherwise
   * the first voice.
   */
  function ChooseVoice(japanese: seq<Voice>, saved: Option<string>): (v: Voice)
    requires |japanese| > 0
    ensures v in japanese
    ensures saved.Some? && saved.value != [] && Offers(japanese, saved.value) ==>
      v.name == saved.value
      && exists i :: 0 <= i < |japanese| && japanese[i] == v
           && forall j :: 0 <= j < i ==> japanese[j].name != saved.value
    ensures !(saved.Some? && saved.value != [] && Offers(japanese, saved.value)) ==> v == japanese[0]
  {
    if saved.Some? && saved.value != [] then
      match FindByName(japanese, saved.value)
      case Some(i) => japanese[i]
      case None => japanese[0]
    else japanese[0]
  }

  /** The selection after a load, when a voice already selected is kept (line 14's guard). */
  function SelectionAfterLoad(japanese: seq<Voice>, saved: Option<string>, current: Option<Voice>): (r: Option<Voice>)
    ensures current.Some? ==> r == current
    ensures |japanese| == 0 ==> r == current
    ensures current.None? && |japanese| > 0 ==> r.Some? && r.value in japanese
  {
    if |japanese| > 0 && current.None? then Some(ChooseVoice(japanese, saved)) else current
  }

  /**
   * The selection after a load as the hook evaluates it: the guard reads the
   * selection captured when the component mounted, which is always empty.
   */
  function SelectionAfterLoadAsWritten(japanese: seq<Voice>, saved: Option<string>, current: Option<Voice>): (r: Option<Voice>)
    ensures |japanese| > 0 ==> r.Some? && r.value in japanese
    ensures |japanese| == 0 ==> r == current
  {
    if |japanese| > 0 then Some(ChooseVoice(japanese, saved)) else current
  }

  /**
   * Two offered voices share a name and the user picked the second; a later
   * voices-changed event replaces the pick with the first as written, and
   * keeps it with the guard honoured.
   */
  lemma ReloadOverridesSelectionAsWritten()
    ensures var a, b := Voice("Kyoko", "ja-JP"), Voice("Kyoko", "ja");
      && SelectionAfterLoadAsWritten([a, b], Some("Kyoko"), Some(b)) == Some(a)
      && SelectionAfterLoad([a, b], Some("Kyoko"), Some(b)) == Some(b)
  {
    var a, b := Voice("Kyoko", "ja-JP"), Voice("Kyoko", "ja");
    assert [a, b][0].name == "Kyoko";
  }

  /** No two voices in the list share a name. */
  predicate UniqueNames(voices: seq<Voice>) {
    forall i, j :: 0 <= i < j < |voices| ==> voices[i].name != voices[j].name
  }

  /**
   * Persisting a voice's name and loading again picks a voice of that name,
   * and that very voice when names are unique.
   */
  lemma SavedNameRoundTrip(v: Voice, available: seq<Voice>)
    requires v in JapaneseVoices(available) && v.name != []
    ensures var japanese := JapaneseVoices(available);
      && ChooseVoice(japanese, Some(v.name)).name == v.name
      && (UniqueNames(japanese) ==> ChooseVoice(japanese, Some(v.name)) == v)
  {
    var japanese := JapaneseVoices(available);
    var k :| 0 <= k < |japanese| && japanese[k] == v;
    assert Offers(japanese, v.name);
  }

  class SpeechSynthesis {
    var voices: seq<Voice>
    var selectedVoice: Option<Voice>
    var speaking: bool
    /** The `selectedVoice` entry of local storage. */
    var storedName: Option<string>
    /** The calls made on the platform synthesiser, oldest first. */
    var engine: seq<EngineCall>

    /** A fresh hook, with whatever local storage already holds. */
    constructor (stored: Option<string>)
      ensures voices == [] && selectedVoice == None && !speaking
      ensures storedName == stored && engine == []
    {
      voices, selectedVoice, speaking := [], None, false;
      storedName, engine := stored, [];
    }

    /** `loadVoices`: keep the Japanese voices; pick one if none is selected yet. */
    method LoadVoices(available: seq<Voice>)
      modifies this`voices, this`selectedVoice
      ensures voices == JapaneseVoices(available)
      ensures selectedVoice == SelectionAfterLoad(voices, storedName, old(selectedVoice))
      ensures old(selectedVoice).None? && voices != [] ==> selectedVoice.Some? && selectedVoice.value in voices
    {
      voices := JapaneseVoices(available);
      if |voices| > 0 && selectedVoice.None? {
        selectedVoice := Some(ChooseVoice(voices, storedName));
      }
    }

    /** `speak`: nothing without a selected voice; otherwise cancel, then queue a Japanese utterance. */
    method Speak(text: string)
      modifies this`engine
      ensures old(selectedVoice).None? ==> engine == old(engine)
      ensures old(selectedVoice).Some? ==>
        engine == old(engine) + [Cancel, Utter(text, selectedVoice.value, "ja-JP")]
    {
      if selectedVoice.None? {
        return;
      }
      engine := engine + [Cancel, Utter(text, selectedVoice.value, "ja-JP")];
    }

    /** The platform reports that an utterance started. */
    method UtteranceStarted()
      modifies this`speaking
      ensures speaking
    {
      speaking := true;
    }

    /** The platform reports that an utterance ended or failed. */
    method UtteranceEnded()
      modifies this`speaking
      ensures !speaking
    {
      speaking := false;
    }

    /** `stop`: cancel everything and mark the hook silent. */
    method Stop()
      modifies this`engine, this`speaking
      ensures !speaking && engine == old(engine) + [Cancel]
    {
      engine := engine + [Cancel];
      speaking := false;
    }

    /** `selectVoice`: select the voice and persist its name. */
    method SelectVoice(v: Voice)
      modifies this`selectedVoice, this`storedName
      ensures selectedVoice == Some(v) && storedName == Some(v.name)
    {
      selectedVoice := Some(v);
      storedName := Some(v.name);
    }

    /** The effect's cleanup when the component unmounts. */
    method Unmount()
      modifies this`engine
      ensures engine == old(engine) + [Cancel]
    {
      engine := engine + [Cancel];
    }
  }

  /**
   * Picking a Japanese voice and loading the hook again (a new page with the
   * same local storage) selects a voice of the same name.
   */
  method SelectionSurvivesReload(v: Voice, available: seq<Voice>) returns (reloaded: Option<Voice>)
    requires v in JapaneseVoices(available) && v.name != []
    ensures reloaded.Some? && reloaded.value.name == v.name
  {
    var first := new SpeechSynthesis(None);
    first.LoadVoices(available);
    first.SelectVoice(v);
    var second := new SpeechSynthesis(first.storedName);
    second.LoadVoices(available);
    SavedNameRoundTrip(v, available);
    reloaded := second.selectedVoice;
  }
}
