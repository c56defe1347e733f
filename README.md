# First-aid assistant: protocol table and speech front end

This project models the two pieces of logic in the first-aid guidance app:

- **The protocol table** (`EmergencyProtocols.swift`), in `emergency_protocols.dfy`. It is a
  set of total lookups from a protocol name and a 1-based step number to spoken guidance,
  on-screen instructions and an optional safety warning. It also gives, per protocol, the step
  count and an icon name, and holds the fixed list of four emergency types shown on the home
  screen. Four protocols are known: Choking, Heart Attack and Stroke with 4 steps each, and Fall
  with 3. Any other name or step falls through to a fixed default, and the table never clamps a step.
- **The speech front end** (`SpeechManager.swift`), in `speech.dfy`, with the string helpers it
  relies on in `text.dfy`:
  - the text rewriter `EnhanceTextForNaturalSpeech`. It first replaces `". "`, `"! "` and
    `"? "` with `"... "`. Then it either puts an emotion's lead-in in front or applies the
    emotion's word replacements in order.
  - the voice selector `GetBestHumanVoice`. It tries seven preferred voice names in priority
    order, then the first high-quality English voice, then the first English voice.
  - the `SpeechManager` class. Its `isSpeaking` flag is raised by `Speak` and by the
    synthesizer's start event. It is lowered by `StopSpeaking` and by the finish and cancel events.

`ReplaceAll` models Foundation's `replacingOccurrences(of:with:)`. It scans left to right and
replaces non-overlapping occurrences. `Contains` and `HasPrefix` model Swift's `contains` and
`hasPrefix`. `options.dfy` holds the `Option` type that stands for Swift's `T?`.

Three points about the code's behaviour are worth stating plainly:

- The pauses are inserted first, and the emotion's lead-in or word replacements are applied
  to the paused text (SpeechManager.swift:129-150).
- The word replacements of one emotion are applied one after the other, in the listed order.
- The synthesizer's start, finish and cancel events change the flag whatever utterance they
  concern (SpeechManager.swift:162-178). `LateFinishAfterSecondSpeak` shows the effect: a late
  finish event lowers the flag while the second utterance is still with the synthesizer.

## Model

| member | source | states |
|---|---|---|
| `EmergencyProtocols.MaxSteps` | EmergencyProtocols.swift:183-191 | the step count is between 1 and 4, and it is 1 exactly for names that are not one of the four protocols |
| `EmergencyProtocols.Guidance` | EmergencyProtocols.swift:7-45 | never empty; the default message comes back exactly when the pair is not a known protocol with 1 ≤ step ≤ MaxSteps, so step 0, negative steps and steps past the last (Fall step 4) get the default |
| `EmergencyProtocols.Instructions` | EmergencyProtocols.swift:50-165 | never empty; the default instructions come back exactly when the pair is out of range, the same range the step counts give |
| `EmergencyProtocols.SafetyWarning` | EmergencyProtocols.swift:170-178 | a warning is only ever given for a known protocol and a step within its range, and it is non-empty |
| `EmergencyProtocols.WarningPairs` | EmergencyProtocols.swift:170-178 | a warning exists exactly for (Choking,2), (Choking,3), (Heart Attack,2), (Stroke,4) and (Fall,2) |
| `EmergencyProtocols.Icon` | EmergencyProtocols.swift:193-201 | "cross.case.fill" comes back exactly for names that are not one of the four protocols |
| `EmergencyProtocols.GuidanceDistinct` | EmergencyProtocols.swift:9-41 | two different in-range steps of the same protocol never share guidance |
| `EmergencyProtocols.InstructionsDistinct` | EmergencyProtocols.swift:54-161 | two different in-range steps of the same protocol never share instructions |
| `EmergencyProtocols.EmergencyTypesAgree` | EmergencyProtocols.swift:205-234 | the list has four entries with distinct ids; the ids are exactly the four protocol names; each entry's icon is the icon table's and its protocol has more than one step; each colour is "red" or "orange" |
| `Text.ReplaceAll` | SpeechManager.swift:129-131 | replacing a pattern by a text at least as long never shortens the string; a string without the (non-empty) pattern comes back unchanged |
| `Text.ReplaceAtFirst` | SpeechManager.swift:129-131 | for every string, pattern and replacement: the text before the first occurrence is kept, that occurrence becomes the replacement, and scanning resumes right after it, so replaced occurrences never overlap |
| `Text.LeftToRightNonOverlapping` | SpeechManager.swift:129 | an illustration of the scanning rule: "aaa" with "aa"→"b" gives "ba" |
| `Text.ReplaceAllAvoids` | SpeechManager.swift:129-131 | after replace-all, a two-character sequence is absent when the replacement cannot produce it and the input lacks it (or it is the pattern itself) |
| `Speech.Paused` | SpeechManager.swift:129-131 | the pause pass never shortens the text, leaves no "! " and no "? ", and returns a text with no ". ", "! " or "? " unchanged |
| `Speech.SwapsAvoid` | SpeechManager.swift:137-149 | word replacements whose replacements lack '!' or '?' and do not start with a space keep a text free of "! " or "? " |
| `Speech.SwapsIdle` | SpeechManager.swift:137-149 | word replacements whose targets do not occur return the text unchanged |
| `Speech.LeadInShape` | SpeechManager.swift:134-150 | each emotion either adds a lead-in or rewrites words, never both; every lead-in ends in a space and holds no '!' or '?' |
| `Speech.WordSwapsShape` | SpeechManager.swift:137-149 | every word replacement has a non-empty target and a non-empty replacement that holds no '!' or '?' and does not start with a space |
| `Speech.LeadInAvoids` | SpeechManager.swift:135-147 | putting an emotion's lead-in in front cannot create "! " or "? " |
| `Speech.EnhanceTextForNaturalSpeech` | SpeechManager.swift:125-153 | the result is the emotion's lead-in followed by the paused text with the emotion's replacements applied in order; it never contains "! " or "? "; calm, caring, supportive and helpful give exactly lead-in + paused text; urgent, friendly and warm return a text with no sentence break and none of their target words unchanged |
| `Speech.First` | SpeechManager.swift:96 | nothing exactly when no voice meets the condition; otherwise a voice of the list that meets it, with no earlier voice meeting it |
| `Speech.Filter` | SpeechManager.swift:103-109 | its members are exactly the listed voices that meet the condition; it is empty exactly when there is no first match, and otherwise starts with the first match |
| `Speech.FirstOfEnglish` | SpeechManager.swift:103-111 | the first high-quality voice among the English voices is the first voice that is both English and high quality |
| `Speech.BestFrom` | SpeechManager.swift:90-122 | the selector's choice from a given preferred name on is an English voice from the list, and there is none exactly when no voice is English |
| `Speech.PreferenceOverListOrder` | SpeechManager.swift:90-100 | preference follows the order of the preferred names, not the list: with Alex listed before Samantha, both English, Samantha is picked |
| `Speech.GetBestHumanVoice` | SpeechManager.swift:87-123 | the result is `BestVoice`; for the earliest preferred name that some English voice's name contains, the result is the first such voice in list order; with no preferred match, it is the first English high-quality voice, else the first English voice; nothing exactly when no voice is English; any result is an English voice from the list |
| `Speech.SpeechManager.constructor` | SpeechManager.swift:5 | a new manager is not speaking and holds no utterance |
| `Speech.SpeechManager.Speak` | SpeechManager.swift:28-49 | the previous utterance is cancelled and replaced; the new one carries the rewritten text (never containing "! " or "? ") and the voice the selector's priority rules pick (`BestVoice`: an English voice from the list, or none exactly when there is no English voice); the flag is raised |
| `Speech.SpeechManager.StopSpeaking` | SpeechManager.swift:155-158 | the utterance is cancelled and the flag is lowered, whatever the prior state |
| `Speech.SpeechManager.OnStart` | SpeechManager.swift:162-166 | the start event raises the flag, whatever the prior state |
| `Speech.SpeechManager.OnFinish` | SpeechManager.swift:168-172 | the finish event lowers the flag, whatever the prior state |
| `Speech.SpeechManager.OnCancel` | SpeechManager.swift:174-178 | the cancel event lowers the flag, whatever the prior state |
| `Speech.LateFinishAfterSecondSpeak` | SpeechManager.swift:168-172 | events are not tied to an utterance: a finish event after a second Speak lowers the flag while the synthesizer still holds the second utterance |

## Left out

- Emotion-specific rate, pitch and volume, and the pre- and post-utterance delays (SpeechManager.swift:51-85): these are floating-point platform settings.
- The audio session set-up, the platform synthesizer calls and the log output (SpeechManager.swift:19-26, 34-48): these are platform I/O. The list of installed voices becomes the `voices` parameter. The synthesizer's own playback becomes the `current` field, which `Speak` replaces and `StopSpeaking` clears.
- The delegate events are handed to the main queue asynchronously (SpeechManager.swift:163-177). The model treats them as events that arrive one at a time, in delivery order. Thread scheduling is not modelled.
- `Speech.SpeechManager.OnFinish` and `Speech.SpeechManager.OnCancel` do not clear `current`. The source's handlers only touch the flag. When the real synthesizer drops a finished utterance is platform behaviour.
- Swift strings are sequences of grapheme clusters, and Foundation replaces on UTF-16 units. The model works on plain characters, which agrees with them for the ASCII patterns used here.
- `Speech.Quality` stands for the platform's voice quality tiers. Only `Enhanced` counts as high quality by itself, as in the source's `quality == .enhanced` test.
- Step advancement, activation, resolve and reset of an emergency session belong to the view layer (`ContentView`), not to the table. The table's own contracts show it does no clamping. That view layer is not part of this model.
- `Speech.SpeechManager.Speak` takes the emotion as a required parameter. The Swift default argument `.calm` (SpeechManager.swift:28) is not modelled; passing `Calm` gives the same behaviour.
- `UIComponents.swift` is left out: it is screen layout, gradients and animation.
- `EmergencyProtocols.MaxSteps`, `EmergencyProtocols.Guidance` and `EmergencyProtocols.Instructions` state the step ranges and the default fall-through. The exact texts and counts (4, 4, 4 and 3) are written out in their bodies, not repeated as contracts.
