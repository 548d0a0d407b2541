/**
 * The definition panel: given a search word it asks the dictionary for the
 * word, keeps seven pieces of state (senses, loading flag, error message,
 * saved flag, phonetic text, audio URL, part of speech), and renders a
 * loading line, an error line, nothing, or a definition card. The network
 * answer is a parameter of type `Outcome`.
 */
module Definition {
  import opened Wrappers

  /** One sense of a word: its definition, with an optional example and optional synonyms. */
  datatype Sense = Sense(definition: string, example: Option<string>, synonyms: Option<seq<string>>)

  /** An entry of `phonetics`; an absent `audio` is the empty string, as both are falsy. */
  datatype PhoneticEntry = PhoneticEntry(text: string, audio: string)

  datatype Meaning = Meaning(partOfSpeech: Option<string>, definitions: seq<Sense>)

  /** One element of the decoded response array. */
  datatype WordData = WordData(phonetic: Option<string>, phonetics: seq<PhoneticEntry>, meanings: seq<Meaning>)

  /**
   * How the request ended: a response whose status is not OK; an exception,
   * carrying the message of an `Error` or nothing for a thrown non-`Error`;
   * or an OK response decoded to an array of entries.
   */
  datatype Outcome = NotOk | Threw(message: Option<string>) | Ok(data: seq<WordData>)

  const NotFoundMessage: string := "Word not found"
  const FetchFailedMessage: string := "Failed to fetch definition"
  /** The `TypeError` a JavaScript engine (V8) raises when `data[0]` is undefined. */
  const UndefinedEntryMessage: string := "Cannot read properties of undefined (reading 'phonetic')"

  /** The panel's state: the seven `useState` cells. */
  datatype FetchState = FetchState(
    definitions: seq<Sense>,
    loading: bool,
    error: Option<string>,
    saved: bool,
    phonetic: string,
    audioUrl: string,
    partOfSpeech: string)

  const Initial: FetchState := FetchState([], false, None, false, "", "", "")

  /** `wordData.phonetic || ''` */
  function PhoneticText(w: WordData): string {
    w.phonetic.GetOr("")
  }

  /**
   * `phonetics.find(p => p.audio)?.audio`: the audio of the first entry whose
   * audio is non-empty, or nothing when no entry has one.
   */
  function FirstAudio(ps: seq<PhoneticEntry>): (r: Option<string>)
    ensures r.None? <==> forall i :: 0 <= i < |ps| ==> ps[i].audio == ""
    ensures r.Some? ==> (r.value != "" &&
      exists i :: 0 <= i < |ps| && ps[i].audio == r.value && forall j :: 0 <= j < i ==> ps[j].audio == "")
  {
    if ps == [] then None
    else if ps[0].audio != "" then Some(ps[0].audio)
    else
      var r := FirstAudio(ps[1..]);
      if r.Some? then
        var i :| 0 <= i < |ps[1..]| && ps[1..][i].audio == r.value && forall j :: 0 <= j < i ==> ps[1..][j].audio == "";
        assert ps[i + 1].audio == r.value && forall j :: 0 <= j < i + 1 ==> ps[j].audio == "";
        r
      else
        assert forall i :: 1 <= i < |ps| ==> ps[i].audio == ps[1..][i - 1].audio;
        r
  }

  /** `meanings[0]?.partOfSpeech`, when it is present and non-empty. */
  function LeadPartOfSpeech(ms: seq<Meaning>): (r: Option<string>)
    ensures r.Some? <==> ms != [] && ms[0].partOfSpeech.Some? && ms[0].partOfSpeech.value != ""
    ensures r.Some? ==> r == ms[0].partOfSpeech
  {
    if ms != [] && ms[0].partOfSpeech.Some? && ms[0].partOfSpeech.value != "" then ms[0].partOfSpeech else None
  }

  /**
   * `meanings.flatMap(m => m.definitions.map(...))`: every meaning's senses,
   * meanings in order and each meaning's senses in order.
   */
  function Flatten(ms: seq<Meaning>): (r: seq<Sense>)
    ensures forall i, d :: 0 <= i < |ms| && d in ms[i].definitions ==> d in r
    ensures forall d :: d in r ==> exists i :: 0 <= i < |ms| && d in ms[i].definitions
  {
    if ms == [] then []
    else
      var rest := Flatten(ms[1..]);
      assert forall i :: 1 <= i < |ms| ==> ms[i] == ms[1..][i - 1];
      ms[0].definitions + rest
  }

  /** The number of senses over all meanings. */
  function SenseCount(ms: seq<Meaning>): nat {
    if ms == [] then 0 else |ms[0].definitions| + SenseCount(ms[1..])
  }

  /** The flattened list is as long as all meanings' sense lists together. */
  lemma {:induction false} FlattenLength(ms: seq<Meaning>)
    ensures |Flatten(ms)| == SenseCount(ms)
  {
    if ms != [] {
      FlattenLength(ms[1..]);
    }
  }

  /** Flattening distributes over concatenation of meaning lists, so the order of meanings is kept. */
  lemma {:induction false} FlattenConcat(a: seq<Meaning>, b: seq<Meaning>)
    ensures Flatten(a + b) == Flatten(a) + Flatten(b)
  {
    if a == [] {
      assert a + b == b;
    } else {
      assert (a + b)[0] == a[0] && (a + b)[1..] == a[1..] + b;
      FlattenConcat(a[1..], b);
    }
  }

  /**
   * The first flattened sense, the one a save sends to the history, is the
   * first sense of the first meaning that has any.
   */
  lemma {:induction false} FlattenHead(ms: seq<Meaning>)
    requires Flatten(ms) != []
    ensures exists k :: (0 <= k < |ms| && ms[k].definitions != [] &&
      (forall j :: 0 <= j < k ==> ms[j].definitions == []) &&
      Flatten(ms)[0] == ms[k].definitions[0])
  {
    if ms[0].definitions == [] {
      FlattenHead(ms[1..]);
      var k :| 0 <= k < |ms[1..]| && ms[1..][k].definitions != [] &&
        (forall j :: 0 <= j < k ==> ms[1..][j].definitions == []) &&
        Flatten(ms[1..])[0] == ms[1..][k].definitions[0];
      assert ms[k + 1] == ms[1..][k];
      assert forall j :: 1 <= j < k + 1 ==> ms[j] == ms[1..][j - 1];
    } else {
      assert ms[0].definitions != [];
    }
  }

  /** The synchronous start of `fetchDefinition`: loading on, error cleared, saved flag reset. */
  function Begin(s: FetchState): (r: FetchState)
    ensures r.loading && r.error == None && !r.saved
    ensures r.definitions == s.definitions && r.phonetic == s.phonetic
    ensures r.audioUrl == s.audioUrl && r.partOfSpeech == s.partOfSpeech
  {
    s.(loading := true, error := None, saved := false)
  }

  /** The message the `catch` block stores for an exception. */
  function ThrownMessage(message: Option<string>): string {
    message.GetOr(FetchFailedMessage)
  }

  /**
   * What the rest of `fetchDefinition` does with the outcome, the `finally`
   * included: loading always ends; a failure records its message and leaves
   * the extracted fields alone; success takes the first entry's phonetic text
   * (or ''), its first audio and part of speech when they exist (the
   * previous values otherwise), and all its senses.
   */
  function Settle(s: FetchState, o: Outcome): (r: FetchState)
    ensures !r.loading && r.saved == s.saved
    ensures o.NotOk? ==> r == s.(loading := false, error := Some(NotFoundMessage))
    ensures o.Threw? && o.message.None? ==> r.error == Some(FetchFailedMessage)
    ensures o.Threw? && o.message.Some? ==> r.error == o.message
    ensures o.Ok? && o.data == [] ==> r.error == Some(UndefinedEntryMessage)
    ensures o.Ok? && o.data != [] ==>
      r.error == s.error && r.definitions == Flatten(o.data[0].meanings) && r.phonetic == PhoneticText(o.data[0])
    ensures !(o.Ok? && o.data != []) ==>
      r.definitions == s.definitions && r.phonetic == s.phonetic &&
      r.audioUrl == s.audioUrl && r.partOfSpeech == s.partOfSpeech
  {
    match o
    case NotOk => s.(loading := false, error := Some(NotFoundMessage))
    case Threw(message) => s.(loading := false, error := Some(ThrownMessage(message)))
    case Ok(data) =>
      if data == [] then s.(loading := false, error := Some(UndefinedEntryMessage))
      else
        var w := data[0];
        s.(phonetic := PhoneticText(w),
           audioUrl := FirstAudio(w.phonetics).GetOr(s.audioUrl),
           partOfSpeech := LeadPartOfSpeech(w.meanings).GetOr(s.partOfSpeech),
           definitions := Flatten(w.meanings),
           loading := false)
  }

  /** One run of the effect for `word`: nothing when the word is empty, otherwise start and settle. */
  function Fetch(s: FetchState, word: string, o: Outcome): (r: FetchState)
    ensures word == "" ==> r == s
    ensures word != "" ==> !r.loading && !r.saved
  {
    if word == "" then s else Settle(Begin(s), o)
  }

  /**
   * On success the audio URL becomes the audio of the first phonetics entry
   * that has one; when no entry has one the previous URL stays.
   */
  lemma SettleAudio(s: FetchState, w: WordData, rest: seq<WordData>)
    ensures var r := Settle(s, Ok([w] + rest));
      (forall i :: 0 <= i < |w.phonetics| ==> w.phonetics[i].audio == "") ==> r.audioUrl == s.audioUrl
    ensures var r := Settle(s, Ok([w] + rest));
      forall i :: (0 <= i < |w.phonetics| && w.phonetics[i].audio != "" &&
        (forall j :: 0 <= j < i ==> w.phonetics[j].audio == "")) ==> r.audioUrl == w.phonetics[i].audio
  {
  }

  /**
   * On success the part of speech is overwritten only by a non-empty one
   * from the first meaning; the phonetic text is always overwritten, with ''
   * when the entry has none.
   */
  lemma SettlePartOfSpeech(s: FetchState, w: WordData, rest: seq<WordData>)
    ensures var r := Settle(s, Ok([w] + rest));
      if w.meanings != [] && w.meanings[0].partOfSpeech.Some? && w.meanings[0].partOfSpeech.value != ""
      then r.partOfSpeech == w.meanings[0].partOfSpeech.value
      else r.partOfSpeech == s.partOfSpeech
    ensures var r := Settle(s, Ok([w] + rest));
      r.phonetic == (if w.phonetic.Some? then w.phonetic.value else "")
  {
  }

  /** A run of the effect for a word ends with loading off, and in the error state exactly when the outcome is not a usable entry. */
  lemma FetchEndsSettled(s: FetchState, word: string, o: Outcome)
    requires word != ""
    ensures var r := Fetch(s, word, o);
      !r.loading && !r.saved && (r.error.Some? <==> !(o.Ok? && o.data != []))
  {
  }

  /** The request `handleSave` sends to the history: the word and the first sense's definition. */
  datatype SaveRequest = SaveRequest(word: string, definition: string)

  /** `handleSave`: a request exactly when there is a sense to save. */
  function SaveRequestOf(s: FetchState, word: string): (r: Option<SaveRequest>)
    ensures r.Some? <==> s.definitions != []
    ensures r.Some? ==> r.value == SaveRequest(word, s.definitions[0].definition)
  {
    if |s.definitions| > 0 then Some(SaveRequest(word, s.definitions[0].definition)) else None
  }

  /** The state after `handleSave`: the saved flag is set exactly when there is a sense to save. */
  function AfterSave(s: FetchState): (r: FetchState)
    ensures r.saved <==> s.saved || s.definitions != []
    ensures r.(saved := s.saved) == s
  {
    if |s.definitions| > 0 then s.(saved := true) else s
  }

  /**
   * What the panel shows. A card shows the part of speech when it is
   * non-empty, the phonetic line when the phonetic text is non-empty, and
   * the audio button only inside that line, when the audio URL is non-empty.
   */
  datatype View =
    | LoadingView
    | ErrorView(message: string)
    | Blank
    | Card(word: string, partOfSpeech: Option<string>, phonetic: Option<string>, audio: Option<string>,
           senses: seq<Sense>, saved: bool)

  function NonEmpty(s: string): Option<string> {
    if s != "" then Some(s) else None
  }

  /**
   * The render: loading wins over an error, an error over an empty word, and
   * the card comes last. An error message is shown only when it is
   * non-empty, as an empty string is falsy.
   */
  function Render(s: FetchState, word: string): (v: View)
    ensures v.LoadingView? <==> s.loading
    ensures v.ErrorView? <==> !s.loading && s.error.Some? && s.error.value != ""
    ensures v.ErrorView? ==> v.message == s.error.value
    ensures v.Blank? <==> !s.loading && (s.error.None? || s.error.value == "") && word == ""
    ensures v.Card? ==> v.word == word && v.senses == s.definitions && v.saved == s.saved
    ensures v.Card? ==> (v.audio.Some? <==> s.phonetic != "" && s.audioUrl != "")
    ensures v.Card? && v.audio.Some? ==> v.audio.value == s.audioUrl
    ensures v.Card? ==> (v.partOfSpeech.Some? <==> s.partOfSpeech != "")
    ensures v.Card? && v.partOfSpeech.Some? ==> v.partOfSpeech.value == s.partOfSpeech
    ensures v.Card? ==> (v.phonetic.Some? <==> s.phonetic != "")
    ensures v.Card? && v.phonetic.Some? ==> v.phonetic.value == s.phonetic
  {
    if s.loading then LoadingView
    else if s.error.Some? && s.error.value != "" then ErrorView(s.error.value)
    else if word == "" then Blank
    else
      Card(word, NonEmpty(s.partOfSpeech), NonEmpty(s.phonetic),
           if s.phonetic != "" then NonEmpty(s.audioUrl) else None,
           s.definitions, s.saved)
  }

  /** A word the dictionary does not know shows "Word not found", no senses, and no save button. */
  lemma NotFoundShowsMessage(s: FetchState, word: string)
    requires word != ""
    ensures Render(Fetch(s, word, NotOk), word) == ErrorView(NotFoundMessage)
  {
  }

  /** A found word shows a card with all its senses, flattened, not yet saved. */
  lemma FoundShowsCard(s: FetchState, word: string, data: seq<WordData>)
    requires word != "" && data != []
    ensures var v := Render(Fetch(s, word, Ok(data)), word);
      v.Card? && v.senses == Flatten(data[0].meanings) && !v.saved
  {
  }

  /**
   * As written, a word with a phonetic text but no audio and no part of
   * speech shows the audio button and the part of speech of the word looked
   * up before it: "cat" (audio, noun), then "dog" (neither), plays "cat" and
   * labels "dog" a noun.
   */
  lemma StaleAudioShownAsWritten()
    ensures var cat := WordData(Some("/kat/"), [PhoneticEntry("/kat/", "cat.mp3")], [Meaning(Some("noun"), [])]);
      var dog := WordData(Some("/dog/"), [PhoneticEntry("/dog/", "")], [Meaning(None, [])]);
      var s := Fetch(Fetch(Initial, "cat", Ok([cat])), "dog", Ok([dog]));
      Render(s, "dog") == Card("dog", Some("noun"), Some("/dog/"), Some("cat.mp3"), [], false)
  {
  }

  /**
   * `Settle` with the fields of the previous word reset: audio URL and part
   * of speech start from '' for every new entry.
   */
  function SettleFresh(s: FetchState, o: Outcome): (r: FetchState)
    ensures o.Ok? && o.data != [] ==>
      (r.audioUrl != "" <==> exists i :: 0 <= i < |o.data[0].phonetics| && o.data[0].phonetics[i].audio != "")
    ensures o.Ok? && o.data != [] ==>
      (r.partOfSpeech != "" <==> LeadPartOfSpeech(o.data[0].meanings).Some?)
    ensures o.Ok? && o.data != [] ==>
      r.(audioUrl := s.audioUrl, partOfSpeech := s.partOfSpeech) ==
        Settle(s, o).(audioUrl := s.audioUrl, partOfSpeech := s.partOfSpeech)
    ensures !(o.Ok? && o.data != []) ==> r == Settle(s, o)
  {
    match o
    case Ok(data) =>
      if data == [] then Settle(s, o)
      else
        var w := data[0];
        s.(phonetic := PhoneticText(w),
           audioUrl := FirstAudio(w.phonetics).GetOr(""),
           partOfSpeech := LeadPartOfSpeech(w.meanings).GetOr(""),
           definitions := Flatten(w.meanings),
           loading := false)
    case _ => Settle(s, o)
  }

  /**
   * With `SettleFresh`, the card offers an audio button exactly when the
   * entry shown has a phonetic text and an audio, and shows a part of speech
   * exactly when the entry's first meaning has one, whatever came before.
   */
  lemma FreshAudioMatchesEntry(s: FetchState, word: string, w: WordData, rest: seq<WordData>)
    requires word != ""
    ensures var v := Render(SettleFresh(Begin(s), Ok([w] + rest)), word);
      v.Card? &&
      (v.audio.Some? <==> PhoneticText(w) != "" && exists i :: 0 <= i < |w.phonetics| && w.phonetics[i].audio != "") &&
      v.partOfSpeech == LeadPartOfSpeech(w.meanings)
  {
  }

  /**
   * The panel's state cells and its current `word` prop. The network answer
   * of a run of the effect is the parameter `outcome`.
   */
  class WordDefinition {
    var word: string
    var definitions: seq<Sense>
    var loading: bool
    var error: Option<string>
    var saved: bool
    var phonetic: string
    var audioUrl: string
    var partOfSpeech: string

    function State(): FetchState
      reads this
    {
      FetchState(definitions, loading, error, saved, phonetic, audioUrl, partOfSpeech)
    }

    /** Mounting with a word: every cell at its initial value. */
    constructor (word: string)
      ensures this.word == word && State() == Initial
    {
      this.word := word;
      definitions, loading, error, saved := [], false, None, false;
      phonetic, audioUrl, partOfSpeech := "", "", "";
    }

    /** The parent passes a new word; the cells keep their values until the effect runs. */
    method ReceiveWord(w: string)
      modifies this`word
      ensures word == w
    {
      word := w;
    }

    /** The effect `fetchDefinition`, run to completion with the given outcome. */
    method FetchDefinition(outcome: Outcome)
      modifies this
      ensures word == old(word)
      ensures State() == Fetch(old(State()), word, outcome)
    {
      if word == "" {
        return;
      }
      BeginFetch();
      Complete(outcome);
    }

    /** The part of `fetchDefinition` before the request is awaited. */
    method BeginFetch()
      modifies this
      ensures word == old(word)
      ensures State() == Begin(old(State()))
    {
      loading := true;
      error := None;
      saved := false;
    }

    /** The part of `fetchDefinition` after the request is answered, `finally` included. */
    method Complete(outcome: Outcome)
      modifies this
      ensures word == old(word)
      ensures State() == Settle(old(State()), outcome)
    {
      match outcome {
        case NotOk =>
          error := Some(NotFoundMessage);
        case Threw(message) =>
          error := Some(ThrownMessage(message));
        case Ok(data) =>
          if |data| == 0 {
            error := Some(UndefinedEntryMessage);
          } else {
            var wordData := data[0];
            phonetic := PhoneticText(wordData);
            var audio := FirstAudio(wordData.phonetics);
            if audio.Some? {
              audioUrl := audio.value;
            }
            var pos := LeadPartOfSpeech(wordData.meanings);
            if pos.Some? {
              partOfSpeech := pos.value;
            }
            definitions := Flatten(wordData.meanings);
          }
      }
      loading := false;
    }

    /** `handleSave`: returns the request sent to the history, if any, and sets the saved flag with it. */
    method HandleSave() returns (request: Option<SaveRequest>)
      modifies this`saved
      ensures request == SaveRequestOf(old(State()), word)
      ensures State() == AfterSave(old(State()))
    {
      request := None;
      if |definitions| > 0 {
        request := Some(SaveRequest(word, definitions[0].definition));
        saved := true;
      }
    }

    /** What the panel renders now. */
    function View(): (v: View)
      reads this
      ensures v.LoadingView? <==> loading
      ensures v == Render(State(), word)
    {
      Render(State(), word)
    }
  }
}
