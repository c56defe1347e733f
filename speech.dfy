/** The speech front end of the assistant: the text rewriter that adds pauses and
    emotion-specific phrasing before text is spoken, the selector that picks the
    most natural English voice from those the platform lists, and the manager
    object whose `isSpeaking` flag follows speak/stop requests and the synthesizer's
    start, finish and cancel events. The platform synthesizer itself, its audio
    session and the numeric voice settings are outside this model. */
module Speech {
  import opened Options
  import opened Text

  datatype SpeechEmotion = Calm | Urgent | Caring | Friendly | Supportive | Helpful | Warm

  // ---------------------------------------------------------------------------
  // Text rewriting

  /** What every sentence break becomes: an elongated pause. */
  const Pause: string := "... "

  /** The pause pass: ". ", "! " and "? " each become "... ", in that order. */
  function Paused(text: string): (r: string)
    ensures |text| <= |r|
    ensures !Contains(r, "! ") && !Contains(r, "? ")
    ensures !Contains(text, ". ") && !Contains(text, "! ") && !Contains(text, "? ") ==> r == text
  {
    var afterStops := ReplaceAll(text, ". ", Pause);
    var afterBangs := ReplaceAll(afterStops, "! ", Pause);
    ReplaceAllAvoids(afterStops, "! ", Pause, "! ");
    ReplaceAllAvoids(afterBangs, "? ", Pause, "! ");
    ReplaceAllAvoids(afterBangs, "? ", Pause, "? ");
    ReplaceAll(afterBangs, "? ", Pause)
  }

  /** The phrase an emotion puts in front of the text; empty for the emotions that
      rewrite words instead. */
  function LeadIn(emotion: SpeechEmotion): string {
    match emotion
    case Calm => "Okay... "
    case Caring => "Don't worry... "
    case Supportive => "I'm right here with you... "
    case Helpful => "Let me help you with this... "
    case _ => ""
  }

  /** The word replacements an emotion applies, as (target, replacement) pairs in
      the order they are applied; empty for the emotions that add a lead-in. */
  function WordSwaps(emotion: SpeechEmotion): seq<(string, string)> {
    match emotion
    case Urgent => [("immediately", "right now"), ("quickly", "fast")]
    case Friendly => [("Hello", "Hello there")]
    case Warm => [("I can", "I'd love to")]
    case _ => []
  }

  /** Applies each replacement to the whole text, one after the other. */
  function ApplySwaps(text: string, swaps: seq<(string, string)>): string
    decreases |swaps|
  {
    if swaps == [] then text
    else ApplySwaps(ReplaceAll(text, swaps[0].0, swaps[0].1), swaps[1..])
  }

  /** Neither '!' nor '?' occurs in `s`. A separate step so that each literal
      lead-in in `LeadInShape` is checked on its own, which keeps that proof cheap. */
  lemma NoMarks(s: string)
    requires forall i :: 0 <= i < |s| ==> s[i] != '!' && s[i] != '?'
    ensures '!' !in s && '?' !in s
  {
  }

  /** Each emotion either adds a lead-in or rewrites words, never both, and every
      lead-in ends in a space and contains neither '!' nor '?'. */
  lemma LeadInShape(emotion: SpeechEmotion)
    ensures LeadIn(emotion) == [] || WordSwaps(emotion) == []
    ensures LeadIn(emotion) != [] ==> LeadIn(emotion)[|LeadIn(emotion)| - 1] == ' '
    ensures '!' !in LeadIn(emotion) && '?' !in LeadIn(emotion)
  {
    match emotion {
      case Calm =>
        NoMarks("Okay... ");
      case Caring =>
        NoMarks("Don't worry... ");
      case Supportive =>
        NoMarks("I'm right here with you... ");
      case Helpful =>
        NoMarks("Let me help you with this... ");
      case _ =>
    }
  }

  /** Every word replacement has a non-empty target and a non-empty replacement
      that neither contains '!' or '?' nor starts with a space. */
  lemma WordSwapsShape(emotion: SpeechEmotion)
    ensures forall k :: 0 <= k < |WordSwaps(emotion)| ==>
      var (target, replacement) := WordSwaps(emotion)[k];
      target != [] && replacement != [] && replacement[0] != ' ' && '!' !in replacement && '?' !in replacement
  {
    match emotion {
      case Urgent =>
        assert '!' !in "right now" && '?' !in "right now";
        assert '!' !in "fast" && '?' !in "fast";
      case Friendly =>
      case Warm =>
      case _ =>
    }
  }

  /** Replacements that cannot produce `q` keep a text free of `q`. */
  lemma {:induction false} SwapsAvoid(text: string, swaps: seq<(string, string)>, q: string)
    requires |q| == 2 && !Contains(text, q)
    requires forall k :: 0 <= k < |swaps| ==>
      swaps[k].0 != [] && swaps[k].1 != [] && swaps[k].1[0] != q[1] && q[0] !in swaps[k].1
    ensures !Contains(ApplySwaps(text, swaps), q)
    decreases |swaps|
  {
    if swaps != [] {
      ReplaceAllAvoids(text, swaps[0].0, swaps[0].1, q);
      SwapsAvoid(ReplaceAll(text, swaps[0].0, swaps[0].1), swaps[1..], q);
    }
  }

  /** Replacements whose targets do not occur leave the text as it is. */
  lemma {:induction false} SwapsIdle(text: string, swaps: seq<(string, string)>)
    requires forall k :: 0 <= k < |swaps| ==> swaps[k].0 != [] && !Contains(text, swaps[k].0)
    ensures ApplySwaps(text, swaps) == text
    decreases |swaps|
  {
    if swaps != [] {
      assert ReplaceAll(text, swaps[0].0, swaps[0].1) == text;
      SwapsIdle(text, swaps[1..]);
    }
  }

  /** A lead-in free of `q`'s first character keeps a text free of `q`. */
  lemma LeadInAvoids(emotion: SpeechEmotion, text: string, q: string)
    requires |q| == 2 && (q[0] == '!' || q[0] == '?') && !Contains(text, q)
    ensures !Contains(LeadIn(emotion) + text, q)
  {
    LeadInShape(emotion);
    AbsentLead(LeadIn(emotion), q);
    ConcatAvoids(LeadIn(emotion), text, q);
  }

  /** Rewrites `text` before it is spoken: the pause pass, then the emotion's
      lead-in or its word replacements. The result never holds "! " or "? ";
      a lead-in emotion gives exactly its lead-in followed by the paused text;
      and a word-rewriting emotion returns a text that has no sentence break and
      none of its target words unchanged. */
  method EnhanceTextForNaturalSpeech(text: string, emotion: SpeechEmotion) returns (enhancedText: string)
    ensures enhancedText == LeadIn(emotion) + ApplySwaps(Paused(text), WordSwaps(emotion))
    ensures !Contains(enhancedText, "! ") && !Contains(enhancedText, "? ")
    ensures LeadIn(emotion) != [] ==> enhancedText == LeadIn(emotion) + Paused(text)
    ensures LeadIn(emotion) == [] && !Contains(text, ". ") && !Contains(text, "! ") && !Contains(text, "? ")
            && (forall k :: 0 <= k < |WordSwaps(emotion)| ==> !Contains(text, WordSwaps(emotion)[k].0))
            ==> enhancedText == text
  {
    enhancedText := text;

    enhancedText := ReplaceAll(enhancedText, ". ", Pause);
    enhancedText := ReplaceAll(enhancedText, "! ", Pause);
    enhancedText := ReplaceAll(enhancedText, "? ", Pause);
    ghost var paused := enhancedText;
    assert paused == Paused(text);

    match emotion {
      case Calm =>
        enhancedText := "Okay... " + enhancedText;
      case Urgent =>
        enhancedText := ReplaceAll(enhancedText, "immediately", "right now");
        ghost var once := enhancedText;
        enhancedText := ReplaceAll(enhancedText, "quickly", "fast");
        assert ApplySwaps(once, [("quickly", "fast")]) == enhancedText;
      case Caring =>
        enhancedText := "Don't worry... " + enhancedText;
      case Friendly =>
        enhancedText := ReplaceAll(enhancedText, "Hello", "Hello there");
      case Supportive =>
        enhancedText := "I'm right here with you... " + enhancedText;
      case Helpful =>
        enhancedText := "Let me help you with this... " + enhancedText;
      case Warm =>
        enhancedText := ReplaceAll(enhancedText, "I can", "I'd love to");
    }
    ghost var swaps := WordSwaps(emotion);
    assert enhancedText == LeadIn(emotion) + ApplySwaps(paused, swaps);

    LeadInShape(emotion);
    WordSwapsShape(emotion);
    SwapsAvoid(paused, swaps, "! ");
    SwapsAvoid(paused, swaps, "? ");
    LeadInAvoids(emotion, ApplySwaps(paused, swaps), "! ");
    LeadInAvoids(emotion, ApplySwaps(paused, swaps), "? ");
    if forall k :: 0 <= k < |swaps| ==> !Contains(text, swaps[k].0) {
      if !Contains(text, ". ") && !Contains(text, "! ") && !Contains(text, "? ") {
        SwapsIdle(text, swaps);
      }
    }
  }

  // ---------------------------------------------------------------------------
  // Voice selection

  /** The quality tier the platform reports for a voice. */
  datatype Quality = Default | Enhanced | Premium

  /** A voice as the platform lists it. */
  datatype Voice = Voice(name: string, language: string, identifier: string, quality: Quality)

  /** Names of the most natural-sounding voices, most wanted first. */
  const PreferredVoiceNames: seq<string> := ["Samantha", "Ava", "Susan", "Allison", "Victoria", "Siri Female", "Alex"]

  predicate IsEnglish(v: Voice) {
    HasPrefix(v.language, "en")
  }

  /** The identifier marks a premium or enhanced voice, or the platform rates it enhanced. */
  predicate IsHighQuality(v: Voice) {
    Contains(v.identifier, "premium") || Contains(v.identifier, "enhanced") || v.quality == Enhanced
  }

  /** The conditions the selector searches the voice list with. */
  datatype Criterion = NamedEnglish(name: string) | English | HighQuality | HighQualityEnglish

  predicate Meets(v: Voice, c: Criterion) {
    match c
    case NamedEnglish(name) => Contains(v.name, name) && IsEnglish(v)
    case English => IsEnglish(v)
    case HighQuality => IsHighQuality(v)
    case HighQualityEnglish => IsEnglish(v) && IsHighQuality(v)
  }

  /** The first voice in list order that meets `c` (Swift's `first(where:)`);
      nothing exactly when no voice meets it. */
  function First(voices: seq<Voice>, c: Criterion): (r: Option<Voice>)
    ensures r.None? <==> forall i :: 0 <= i < |voices| ==> !Meets(voices[i], c)
    ensures r.Some? ==> exists j :: 0 <= j < |voices| && voices[j] == r.value && Meets(voices[j], c)
                                    && forall i :: 0 <= i < j ==> !Meets(voices[i], c)
  {
    if voices == [] then None
    else if Meets(voices[0], c) then
      assert voices[0] == voices[0];
      Some(voices[0])
    else
      var r := First(voices[1..], c);
      assert forall i :: 1 <= i < |voices| ==> voices[i] == voices[1..][i - 1];
      r
  }

  /** The voices that meet `c`, in list order (Swift's `filter`): its members are
      exactly the voices meeting `c`, and its head is the first such voice. */
  function Filter(voices: seq<Voice>, c: Criterion): (r: seq<Voice>)
    ensures forall v :: v in r <==> v in voices && Meets(v, c)
    ensures r == [] <==> First(voices, c).None?
    ensures r != [] ==> r[0] == First(voices, c).value
  {
    if voices == [] then []
    else
      var rest := Filter(voices[1..], c);
      assert forall v :: v in voices <==> v == voices[0] || v in voices[1..];
      if Meets(voices[0], c) then [voices[0]] + rest else rest
  }

  /** Searching the English voices for a high-quality one finds the first voice
      that is both English and high quality. */
  lemma {:induction false} FirstOfEnglish(voices: seq<Voice>)
    ensures First(Filter(voices, English), HighQuality) == First(voices, HighQualityEnglish)
  {
    if voices != [] {
      FirstOfEnglish(voices[1..]);
      var rest := Filter(voices[1..], English);
      if IsEnglish(voices[0]) {
        assert Filter(voices, English) == [voices[0]] + rest;
        assert ([voices[0]] + rest)[1..] == rest;
      }
    }
  }

  /** No voice matches any of the first `k` preferred names. */
  predicate NoPreferredBefore(voices: seq<Voice>, k: int) {
    forall n :: 0 <= n < k && n < |PreferredVoiceNames| ==> First(voices, NamedEnglish(PreferredVoiceNames[n])).None?
  }

  /** The selector's choice, searching from the `k`-th preferred name on: the first
      English voice carrying the earliest of those names, else the first English
      high-quality voice, else the first English voice. */
  function BestFrom(voices: seq<Voice>, k: nat): (r: Option<Voice>)
    ensures r.Some? ==> r.value in voices && IsEnglish(r.value)
    ensures r.None? <==> forall v :: v in voices ==> !IsEnglish(v)
    decreases |PreferredVoiceNames| - k
  {
    if k < |PreferredVoiceNames| && First(voices, NamedEnglish(PreferredVoiceNames[k])).Some? then
      First(voices, NamedEnglish(PreferredVoiceNames[k]))
    else if k < |PreferredVoiceNames| then
      BestFrom(voices, k + 1)
    else if First(voices, HighQualityEnglish).Some? then
      First(voices, HighQualityEnglish)
    else
      First(voices, English)
  }

  /** The voice the selector picks from `voices`. */
  function BestVoice(voices: seq<Voice>): Option<Voice> {
    BestFrom(voices, 0)
  }

  /** Preference follows the order of the preferred names, not the list: with Alex
      listed before Samantha, Samantha is picked. */
  lemma PreferenceOverListOrder(alex: Voice, samantha: Voice)
    requires alex.name == "Alex" && samantha.name == "Samantha"
    requires IsEnglish(alex) && IsEnglish(samantha)
    ensures BestVoice([alex, samantha]) == Some(samantha)
  {
    assert HasPrefix("Samantha", "Samantha");
    assert !Contains("Alex", "Samantha");
    assert First([alex, samantha], NamedEnglish("Samantha")) == Some(samantha);
  }

  /** Picks the voice to speak with from the platform's list `voices`. Stage one:
      for the earliest preferred name that some English voice's name contains,
      the first such voice in list order. Stage two: the first English voice that
      is high quality. Stage three: the first English voice. Nothing only when
      no voice is English; whatever is picked is an English voice from the list. */
  method GetBestHumanVoice(voices: seq<Voice>) returns (best: Option<Voice>)
    ensures best == BestVoice(voices)
    ensures best.Some? ==> best.value in voices && IsEnglish(best.value)
    ensures best.None? <==> forall v :: v in voices ==> !IsEnglish(v)
    ensures forall k :: 0 <= k < |PreferredVoiceNames| && NoPreferredBefore(voices, k)
                        && First(voices, NamedEnglish(PreferredVoiceNames[k])).Some?
                        ==> best == First(voices, NamedEnglish(PreferredVoiceNames[k]))
    ensures NoPreferredBefore(voices, |PreferredVoiceNames|) ==>
      best == if First(voices, HighQualityEnglish).Some? then First(voices, HighQualityEnglish) else First(voices, English)
  {
    for i := 0 to |PreferredVoiceNames|
      invariant NoPreferredBefore(voices, i)
      invariant BestFrom(voices, i) == BestVoice(voices)
    {
      var found := First(voices, NamedEnglish(PreferredVoiceNames[i]));
      if found.Some? {
        return found;
      }
    }

    var englishVoices := Filter(voices, English);
    var enhancedVoices := Filter(englishVoices, HighQuality);
    FirstOfEnglish(voices);

    if enhancedVoices != [] {
      return Some(enhancedVoices[0]);
    }
    if englishVoices != [] {
      return Some(englishVoices[0]);
    }
    return None;
  }

  // ---------------------------------------------------------------------------
  // The speaking flag

  /** What the manager hands to the synthesizer: the rewritten text and the voice
      picked for it (none means the platform default voice). */
  datatype Utterance = Utterance(text: string, voice: Option<Voice>, emotion: SpeechEmotion)

  /** The speech manager. `isSpeaking` is the flag the screens observe; `current`
      is the utterance last handed to the synthesizer, if it has not been stopped
      since. Delegate events arrive one at a time, in the order they are delivered. */
  class SpeechManager {
    var isSpeaking: bool
    var current: Option<Utterance>

    constructor ()
      ensures !isSpeaking && current.None?
    {
      isSpeaking := false;
      current := None;
    }

    /** Cancels whatever the synthesizer holds, then hands it the rewritten text
      with the best voice found among `voices`, and raises the flag. */
    method Speak(text: string, emotion: SpeechEmotion, voices: seq<Voice>)
      modifies this
      ensures isSpeaking && current.Some?
      ensures current.value.emotion == emotion
      ensures current.value.text == LeadIn(emotion) + ApplySwaps(Paused(text), WordSwaps(emotion))
      ensures !Contains(current.value.text, "! ") && !Contains(current.value.text, "? ")
      ensures current.value.voice == BestVoice(voices)
      ensures current.value.voice.Some? ==> current.value.voice.value in voices && IsEnglish(current.value.voice.value)
      ensures current.value.voice.None? <==> forall v :: v in voices ==> !IsEnglish(v)
    {
      current := None;
      var enhancedText := EnhanceTextForNaturalSpeech(text, emotion);
      var voice := GetBestHumanVoice(voices);
      isSpeaking := true;
      current := Some(Utterance(enhancedText, voice, emotion));
    }

    /** Cancels at once and lowers the flag. */
    method StopSpeaking()
      modifies this
      ensures !isSpeaking && current.None?
    {
      current := None;
      isSpeaking := false;
    }

    /** The synthesizer reports that an utterance started. */
    method OnStart()
      modifies this`isSpeaking
      ensures isSpeaking
    {
      isSpeaking := true;
    }

    /** The synthesizer reports that an utterance finished. */
    method OnFinish()
      modifies this`isSpeaking
      ensures !isSpeaking
    {
      isSpeaking := false;
    }

    /** The synthesizer reports that an utterance was cancelled. */
    method OnCancel()
      modifies this`isSpeaking
      ensures !isSpeaking
    {
      isSpeaking := false;
    }
  }

  /** Events are not tied to the utterance they concern: a finish event that
      arrives after a second `Speak` (say, the late event of the first utterance)
      lowers the flag although the synthesizer still holds the second utterance. */
  method LateFinishAfterSecondSpeak(first: string, second: string, voices: seq<Voice>)
    returns (speaking: bool, holdsSecond: bool)
    ensures !speaking && holdsSecond
  {
    var manager := new SpeechManager();
    manager.Speak(first, Calm, voices);
    manager.Speak(second, Supportive, voices);
    manager.OnFinish();
    speaking := manager.isSpeaking;
    holdsSecond := manager.current.Some? && manager.current.value.emotion == Supportive;
  }
}
