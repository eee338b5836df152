/**
  The chart-analysis page (`AnalysisModule`) without its network call: the
  newest-first history capped at ten entries, the way the returned text is
  split into headings and paragraphs, the API-key field with its mask, and
  the guard on uploaded images.
 */
module Analysis {
  import opened Wrappers
  import opened Storage
  import opened JsString

  // ----- History -----

  /** How many analyses the history keeps. */
  const MaxHistory: nat := 10

  datatype HistoryEntry = HistoryEntry(id: string, timestamp: int, image: string, analysis: string)

  /** `history.slice(0, MAX_HISTORY)`: the first ten entries, or all of them when there are fewer. */
  function Limited(history: seq<HistoryEntry>): (r: seq<HistoryEntry>)
    ensures |r| <= MaxHistory
    ensures |r| == if |history| < MaxHistory then |history| else MaxHistory
    ensures r == history[..|r|]
  {
    if |history| <= MaxHistory then history else history[..MaxHistory]
  }

  /**
    What `addToHistory` saves: the new entry first, then the older ones in
    their order, cut to ten.
   */
  function PushNewest(history: seq<HistoryEntry>, entry: HistoryEntry): (r: seq<HistoryEntry>)
    ensures |r| == if |history| + 1 < MaxHistory then |history| + 1 else MaxHistory
    ensures r[0] == entry
    ensures forall k :: 0 <= k < |r| - 1 ==> r[k + 1] == history[k]
  {
    Limited([entry] + history)
  }

  /** Newest to oldest: the last element first. */
  function Reverse<T>(s: seq<T>): (r: seq<T>)
    ensures |r| == |s|
    ensures forall i :: 0 <= i < |r| ==> r[i] == s[|s| - 1 - i]
  {
    if s == [] then [] else Reverse(s[1..]) + [s[0]]
  }

  /** Adding several analyses in turn. */
  function AddAll(history: seq<HistoryEntry>, entries: seq<HistoryEntry>): seq<HistoryEntry>
    decreases |entries|
  {
    if entries == [] then history else AddAll(PushNewest(history, entries[0]), entries[1..])
  }

  /** Cutting before prepending more entries does not change what survives the final cut. */
  lemma LimitedAbsorbs(front: seq<HistoryEntry>, back: seq<HistoryEntry>)
    ensures Limited(front + Limited(back)) == Limited(front + back)
  {
  }

  /**
    The history after any run of analyses: the latest first, newest to
    oldest, then what was there before, keeping only the first ten.
   */
  lemma {:induction false} AddAllNewestFirst(history: seq<HistoryEntry>, entries: seq<HistoryEntry>)
    requires |history| <= MaxHistory
    ensures AddAll(history, entries) == Limited(Reverse(entries) + history)
    decreases |entries|
  {
    if entries == [] {
      assert Reverse(entries) + history == history;
    } else {
      var e, rest := entries[0], entries[1..];
      calc {
        AddAll(history, entries);
        AddAll(PushNewest(history, e), rest);
        { AddAllNewestFirst(PushNewest(history, e), rest); }
        Limited(Reverse(rest) + Limited([e] + history));
        { LimitedAbsorbs(Reverse(rest), [e] + history); }
        Limited(Reverse(rest) + ([e] + history));
        { ReverseFirst(entries, history); }
        Limited(Reverse(entries) + history);
      }
    }
  }

  /** Reversing puts the first entry right before whatever follows. */
  lemma ReverseFirst(entries: seq<HistoryEntry>, tail: seq<HistoryEntry>)
    requires entries != []
    ensures Reverse(entries) + tail == Reverse(entries[1..]) + ([entries[0]] + tail)
  {
  }

  /** The history slot, `localStorage["scalpe_analysis_history"]`. */
  class AnalysisHistory {
    var slot: Slot<HistoryEntry>

    constructor(initial: Slot<HistoryEntry>)
      ensures slot == initial
    {
      slot := initial;
    }

    /** `loadHistory()`. */
    function History(): seq<HistoryEntry>
      reads this
    {
      ReadList(slot)
    }

    /** `addToHistory` with the id and the clock reading it takes from `generateId` and `Date.now`. */
    method AddToHistory(imageData: string, analysis: string, id: string, timestamp: int)
      modifies this
      ensures slot == Holds(PushNewest(old(History()), HistoryEntry(id, timestamp, imageData, analysis)))
      ensures History()[0] == HistoryEntry(id, timestamp, imageData, analysis)
      ensures |History()| <= MaxHistory
    {
      var history := History();
      history := [HistoryEntry(id, timestamp, imageData, analysis)] + history;
      slot := Holds(Limited(history));
    }
  }

  // ----- Results -----

  /** One rendered line of an analysis: an `<h4>` or a `<p>`. */
  datatype Block = Heading(text: string) | Paragraph(text: string)

  /** A line renders as a heading when, trimmed, it starts with `#` or with digits and a dot. */
  predicate IsHeadingLine(line: string)
  {
    StartsWith(Trim(line), "#") || StartsWithNumberDot(Trim(line))
  }

  /** The `map` in `showResults`: headings keep the untrimmed line; an empty line becomes `<br>`. */
  function ClassifyLine(line: string): (b: Block)
    ensures b.Heading? <==> IsHeadingLine(line)
    ensures b.text != []
    ensures b.text == line || (line == "" && b == Paragraph("<br>"))
  {
    if IsHeadingLine(line) then Heading(line)
    else Paragraph(if line == "" then "<br>" else line)
  }

  /** `analysis.split("\n").map(...)`: one block per line, in order. */
  function RenderAnalysis(analysis: string): (blocks: seq<Block>)
    ensures |blocks| == |SplitLines(analysis)| >= 1
    ensures forall i :: 0 <= i < |blocks| ==> (blocks[i].Heading? <==> IsHeadingLine(SplitLines(analysis)[i]))
    ensures forall i :: 0 <= i < |blocks| ==> blocks[i] == ClassifyLine(SplitLines(analysis)[i])
  {
    var lines := SplitLines(analysis);
    seq(|lines|, i requires 0 <= i < |lines| => ClassifyLine(lines[i]))
  }

  /** A line that starts with a number and a dot renders as a heading, whatever follows. */
  lemma NumberedLineIsHeading(number: string, rest: string)
    requires number != [] && forall i :: 0 <= i < |number| ==> IsDigit(number[i])
    ensures IsHeadingLine(number + "." + rest)
  {
    var line := number + "." + rest;
    var n := |number|;
    assert line[n] == '.';
    assert !IsWhiteSpace(line[0]) && !IsWhiteSpace(line[n]);
    var t := Trim(line);
    assert LeadingSpace(line) == 0;
    assert n < |t|;
    assert t[..n + 1] == line[..n + 1];
    assert forall i :: 0 <= i < n ==> t[i] == number[i];
    assert LeadingDigits(t) == n;
  }

  // ----- API key -----

  /** What the field shows in place of a saved key: `"•".repeat(20)`. */
  const KeyMask: string := "••••••••••••••••••••"

  /** The outcome of the save button: refused as empty, left as it was, or stored. */
  datatype KeySave = Rejected | Kept | Stored(key: string)

  /** The save button as written: any non-blank trimmed value is stored, the mask included. */
  function SaveKeyAsWritten(inputValue: string): (r: KeySave)
    ensures r == Rejected <==> Trim(inputValue) == ""
    ensures r != Rejected ==> r == Stored(Trim(inputValue))
  {
    var key := Trim(inputValue);
    if key == "" then Rejected else Stored(key)
  }

  /**
    With a key saved the field shows the mask; pressing save again without
    first focusing the field stores the mask in place of the key.
   */
  lemma MaskSavedAsKey()
    ensures SaveKeyAsWritten(KeyMask) == Stored(KeyMask)
  {
    assert !IsWhiteSpace(KeyMask[0]) && !IsWhiteSpace(KeyMask[|KeyMask| - 1]);
  }

  /** The save button as evidently intended: the mask is never taken for a key. */
  function SaveKey(inputValue: string): (r: KeySave)
    ensures r == Rejected <==> Trim(inputValue) == ""
    ensures r == Kept <==> Trim(inputValue) == KeyMask
    ensures r.Stored? ==> r.key == Trim(inputValue) && r.key != "" && r.key != KeyMask
    ensures Trim(inputValue) != KeyMask ==> r == SaveKeyAsWritten(inputValue)
  {
    var key := Trim(inputValue);
    if key == "" then Rejected
    else if key == KeyMask then Kept
    else Stored(key)
  }

  datatype InputType = Password | PlainText

  /** The API-key field and the stored key, `localStorage["scalpe_gemini_api_key"]`. */
  class ApiKeyField {
    var stored: Option<string>
    var inputValue: string
    var inputType: InputType

    /** `bindApiKey` on an empty password field: a saved key is shown as the mask. */
    constructor(stored: Option<string>)
      ensures this.stored == stored
      ensures ApiKey() != "" ==> inputValue == KeyMask && inputType == PlainText
      ensures ApiKey() == "" ==> inputValue == "" && inputType == Password
    {
      this.stored := stored;
      if stored.Some? && stored.value != "" {
        inputValue, inputType := KeyMask, PlainText;
      } else {
        inputValue, inputType := "", Password;
      }
    }

    /** `getApiKey()`: the stored key, or empty when none is stored. */
    function ApiKey(): string
      reads this
    {
      if stored.Some? then stored.value else ""
    }

    /** The key `analyzeImage` sends, or nothing: it refuses to call the service without one. */
    function KeyForRequest(): (k: Option<string>)
      reads this
      ensures k.None? <==> stored.None? || stored.value == ""
      ensures k.Some? ==> k.value != "" && stored == Some(k.value)
    {
      if ApiKey() == "" then None else Some(ApiKey())
    }

    /** The save button. */
    method Save() returns (outcome: KeySave)
      modifies this
      ensures outcome == SaveKey(old(inputValue))
      ensures outcome.Stored? ==> stored == Some(outcome.key) && inputValue == KeyMask && inputType == PlainText
      ensures !outcome.Stored? ==> stored == old(stored) && inputValue == old(inputValue) && inputType == old(inputType)
    {
      outcome := SaveKey(inputValue);
      if outcome.Stored? {
        stored := Some(outcome.key);
        inputValue, inputType := KeyMask, PlainText;
      }
    }

    /** Focusing the field clears the mask so a new key can be typed. */
    method Focus()
      modifies this
      ensures stored == old(stored)
      ensures old(inputValue) == KeyMask ==> inputValue == "" && inputType == Password
      ensures old(inputValue) != KeyMask ==> inputValue == old(inputValue) && inputType == old(inputType)
    {
      if inputValue == KeyMask {
        inputValue, inputType := "", Password;
      }
    }
  }

  // ----- Image upload -----

  /** The largest accepted image: 10 MiB. */
  const MaxImageBytes: nat := 10 * 1024 * 1024

  datatype ImageFile = ImageFile(name: string, mimeType: string, size: nat)

  datatype UploadCheck = NotAnImage | TooLarge | Accepted

  /** `handleFile`'s guard: the type is checked before the size, and exactly 10 MiB still passes. */
  function CheckUpload(file: ImageFile): (v: UploadCheck)
    ensures v == NotAnImage <==> !StartsWith(file.mimeType, "image/")
    ensures v == TooLarge <==> StartsWith(file.mimeType, "image/") && file.size > MaxImageBytes
    ensures v == Accepted <==> StartsWith(file.mimeType, "image/") && file.size <= 10485760
  {
    if !StartsWith(file.mimeType, "image/") then NotAnImage
    else if file.size > MaxImageBytes then TooLarge
    else Accepted
  }

  /** The image waiting to be analysed (`currentImageFile`). */
  class UploadPanel {
    var current: Option<ImageFile>

    /** Only a file that passed the guard is ever held. */
    ghost predicate Valid()
      reads this
    {
      current.Some? ==> CheckUpload(current.value) == Accepted
    }

    constructor()
      ensures Valid() && current == None
    {
      current := None;
    }

    /** A file chosen or dropped: kept only when it passes the guard. */
    method HandleFile(file: ImageFile) returns (v: UploadCheck)
      requires Valid()
      modifies this
      ensures Valid()
      ensures v == CheckUpload(file)
      ensures v == Accepted ==> current == Some(file)
      ensures v != Accepted ==> current == old(current)
    {
      v := CheckUpload(file);
      if v == Accepted {
        current := Some(file);
      }
    }

    /** The remove button. */
    method RemoveImage()
      modifies this
      ensures Valid() && current == None
    {
      current := None;
    }

    /** The analyse button goes ahead only with an image chosen. */
    method AnalyzeClicked() returns (image: Option<ImageFile>)
      requires Valid()
      ensures image == current
      ensures image.Some? ==> StartsWith(image.value.mimeType, "image/") && image.value.size <= MaxImageBytes
    {
      image := current;
    }
  }
}
