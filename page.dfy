/** The browser page of the emotion-check front end: the upload gate, the
    session's user data (current photo, emotion history, session id), the
    analyse button's busy bracket, the profile's five-entry history and the
    emotion colour table. Rendering into the DOM is not modelled; the state
    the renderers read is. */
module EmotionPage {
  import opened Wrappers
  import Decimal

  /** 5 MiB, the largest upload accepted. */
  const MaxUploadBytes: nat := 5 * 1024 * 1024
  /** The smallest accepted width and height, in pixels. */
  const MinSide: nat := 100
  const ImagePrefix := "image/"
  /** How many history entries the profile shows. */
  const ProfileEntryCount: nat := 5
  const DefaultColor := "#000000"

  /** What the page learns about a chosen file before reading it. */
  datatype FileInfo = FileInfo(mimeType: string, size: nat)

  /** How reading the file as a data URL and loading it into an image ended. */
  datatype ReadOutcome =
    | ReadFailed                                           // FileReader's onerror
    | LoadFailed(data: string)                             // the data URL did not load as an image
    | Loaded(data: string, width: nat, height: nat)        // the image's onload, with its size

  datatype Rejection = NotAnImage | TooLarge | TooSmall | Unreadable

  /** Accepted: the data URL becomes the current photo. Ignored: the image
      failed to load, for which the page installs no handler. */
  datatype UploadDecision = Accepted(data: string) | Rejected(reason: Rejection) | Ignored

  /** The message handed to showError for each rejection. */
  function Message(reason: Rejection): string {
    match reason
    case NotAnImage => "Please upload an image file (JPG, PNG, etc.)"
    case TooLarge => "Please upload an image smaller than 5MB"
    case TooSmall => "Please upload a larger image (minimum 100x100 pixels)"
    case Unreadable => "Error reading the image file. Please try again."
  }

  /** Each rejection has its own message, so the text shown names the gate that failed. */
  lemma MessagesDistinct(a: Rejection, b: Rejection)
    ensures Message(a) == Message(b) <==> a == b
  {
  }

  /** handleImageUpload's decision: the MIME type first, then the byte size,
      then (once the file is read) the pixel dimensions. */
  function Validate(file: FileInfo, read: ReadOutcome): (d: UploadDecision)
    ensures !(ImagePrefix <= file.mimeType) ==> d == Rejected(NotAnImage)
    ensures ImagePrefix <= file.mimeType && file.size > MaxUploadBytes ==> d == Rejected(TooLarge)
    ensures d.Accepted? <==> (ImagePrefix <= file.mimeType && file.size <= MaxUploadBytes
                              && read.Loaded? && read.width >= MinSide && read.height >= MinSide)
    ensures d.Accepted? ==> d.data == read.data
    ensures d == Rejected(TooSmall) <==> (ImagePrefix <= file.mimeType && file.size <= MaxUploadBytes
                                          && read.Loaded? && (read.width < MinSide || read.height < MinSide))
    ensures d == Rejected(Unreadable) <==> (ImagePrefix <= file.mimeType && file.size <= MaxUploadBytes
                                            && read.ReadFailed?)
    ensures d == Ignored <==> (ImagePrefix <= file.mimeType && file.size <= MaxUploadBytes && read.LoadFailed?)
  {
    if !(ImagePrefix <= file.mimeType) then Rejected(NotAnImage)
    else if file.size > MaxUploadBytes then Rejected(TooLarge)
    else match read
      case ReadFailed => Rejected(Unreadable)
      case LoadFailed(_) => Ignored
      case Loaded(data, width, height) =>
        if width < MinSide || height < MinSide then Rejected(TooSmall) else Accepted(data)
  }

  /** The gates are strictly ordered: a wrong type is reported whatever the
      size and the image, and an oversized image whatever its dimensions. */
  lemma GateOrder(mimeType: string, size: nat, read: ReadOutcome, read': ReadOutcome, size': nat)
    ensures !(ImagePrefix <= mimeType) ==>
              Validate(FileInfo(mimeType, size), read) == Validate(FileInfo(mimeType, size'), read')
    ensures size > MaxUploadBytes && size' > MaxUploadBytes ==>
              Validate(FileInfo(mimeType, size), read) == Validate(FileInfo(mimeType, size'), read')
  {
  }

  /** The bounds themselves pass: exactly 5,242,880 bytes and exactly 100 by 100 pixels. */
  lemma BoundariesAccepted(mimeType: string, data: string)
    requires ImagePrefix <= mimeType
    ensures Validate(FileInfo(mimeType, MaxUploadBytes), Loaded(data, MinSide, MinSide)) == Accepted(data)
    ensures Validate(FileInfo(mimeType, MaxUploadBytes + 1), Loaded(data, MinSide, MinSide)) == Rejected(TooLarge)
    ensures Validate(FileInfo(mimeType, MaxUploadBytes), Loaded(data, MinSide - 1, MinSide)) == Rejected(TooSmall)
    ensures Validate(FileInfo(mimeType, MaxUploadBytes), Loaded(data, MinSide, MinSide - 1)) == Rejected(TooSmall)
  {
  }

  /** The result object the analysis handler expects. */
  datatype EmotionResult = EmotionResult(emotion: string, confidence: int)

  /** What the analysis promise resolved to. */
  datatype Resolution = Undefined | Resolved(result: EmotionResult)

  /** analyzeEmotion: waits, then returns nothing, so its promise resolves to undefined. */
  function AnalyzeEmotion(): (r: Resolution)
    ensures !r.Resolved?
  {
    Undefined
  }

  /** One element of userData.emotionHistory. */
  datatype HistoryEntry = HistoryEntry(emotion: string, confidence: int, timestamp: string, photo: Option<string>)

  /** What the result panel shows. */
  datatype ResultPanel = Blank | AnalysisFailed | Detected(emotion: string, confidence: int)

  /** Array.prototype.unshift of one entry. */
  function Unshift(history: seq<HistoryEntry>, entry: HistoryEntry): (r: seq<HistoryEntry>)
    ensures |r| == |history| + 1
    ensures r[0] == entry
    ensures forall i :: 0 <= i < |history| ==> r[i + 1] == history[i]
  {
    [entry] + history
  }

  /** history.slice(0, 5): the newest five entries, newest first. */
  function ProfileEntries(history: seq<HistoryEntry>): (r: seq<HistoryEntry>)
    ensures |r| == if |history| < ProfileEntryCount then |history| else ProfileEntryCount
    ensures forall i :: 0 <= i < |r| ==> r[i] == history[i]
  {
    if |history| <= ProfileEntryCount then history else history[..ProfileEntryCount]
  }

  /** After a new entry is recorded the profile shows it first, followed by
      what it showed before less its oldest entry once five are shown. */
  lemma ProfileAfterUnshift(history: seq<HistoryEntry>, entry: HistoryEntry)
    ensures ProfileEntries(Unshift(history, entry))[0] == entry
    ensures var before := ProfileEntries(history);
            ProfileEntries(Unshift(history, entry))
              == if |before| < ProfileEntryCount then [entry] + before else [entry] + before[..ProfileEntryCount - 1]
  {
  }

  /** The colour table of getEmotionColor. */
  const EmotionColors: map<string, string> := map[
    "Happy" := "#FFD700",
    "Sad" := "#4169E1",
    "Neutral" := "#808080",
    "Excited" := "#FF4500",
    "Tired" := "#8B4513"
  ]

  /** getEmotionColor: the table's colour, or black for any other label. */
  function EmotionColor(emotion: string): string {
    if emotion in EmotionColors then EmotionColors[emotion] else DefaultColor
  }

  predicate IsHexDigit(c: char) {
    '0' <= c <= '9' || 'A' <= c <= 'F' || 'a' <= c <= 'f'
  }

  /** A CSS colour of the form #RRGGBB. */
  predicate IsHexColor(s: string) {
    |s| == 7 && s[0] == '#' && forall i :: 1 <= i < 7 ==> IsHexDigit(s[i])
  }

  /** The five labels get their own colours, every other label black, and
      every answer is a #RRGGBB colour. */
  lemma EmotionColorTable(emotion: string)
    ensures EmotionColor("Happy") == "#FFD700" && EmotionColor("Sad") == "#4169E1"
    ensures EmotionColor("Neutral") == "#808080" && EmotionColor("Excited") == "#FF4500"
    ensures EmotionColor("Tired") == "#8B4513"
    ensures emotion !in {"Happy", "Sad", "Neutral", "Excited", "Tired"} ==> EmotionColor(emotion) == DefaultColor
    ensures IsHexColor(EmotionColor(emotion))
  {
  }

  /** The session id "MH-<year>-<suffix>", the suffix being
      Math.floor(Math.random() * 999) zero-padded to three digits. */
  function SessionId(year: nat, suffix: nat): string
    requires suffix < 999
  {
    "MH-" + Decimal.FromNat(year) + "-" + Decimal.PadStart(Decimal.FromNat(suffix), 3, '0')
  }

  /** Where the parts of "MH-" + y + "-" + p sit, for a three-character p. */
  lemma SplitSessionId(y: string, p: string)
    requires |p| == 3
    ensures var id := "MH-" + y + "-" + p;
            && |id| == |y| + 7 && id[..3] == "MH-" && id[|id| - 4] == '-'
            && id[3..|id| - 4] == y && id[|id| - 3..] == p
    ensures Decimal.AllDigits(y) && Decimal.AllDigits(p) ==>
              var id := "MH-" + y + "-" + p;
              Decimal.AllDigits(id[3..|id| - 4]) && Decimal.AllDigits(id[|id| - 3..])
  {
  }

  /** The id is "MH-", the decimal year, a dash and exactly three digits. */
  lemma SessionIdShape(year: nat, suffix: nat)
    requires suffix < 999
    ensures var id := SessionId(year, suffix);
            && |id| == |Decimal.FromNat(year)| + 7 && id[..3] == "MH-" && id[|id| - 4] == '-'
            && Decimal.AllDigits(id[3..|id| - 4]) && Decimal.AllDigits(id[|id| - 3..])
  {
    var y := Decimal.FromNat(year);
    Decimal.FromNatBelowThousand(suffix);
    var p := Decimal.PadStart(Decimal.FromNat(suffix), 3, '0');
    Decimal.ValueOfZeroPadded(Decimal.FromNat(suffix), 3);
    assert Decimal.AllDigits(y) && Decimal.AllDigits(p);
    SplitSessionId(y, p);
    assert SessionId(year, suffix) == "MH-" + y + "-" + p;
  }

  /** Reads a session id back into its year and suffix. */
  function ParseSessionId(id: string): Option<(nat, nat)> {
    if |id| >= 8 && id[..3] == "MH-" && id[|id| - 4] == '-'
       && Decimal.AllDigits(id[3..|id| - 4]) && Decimal.AllDigits(id[|id| - 3..])
    then Some((Decimal.Value(id[3..|id| - 4]), Decimal.Value(id[|id| - 3..])))
    else None
  }

  /** Parsing "MH-" + y + "-" + p reads back the values of y and p. */
  lemma ParseParts(y: string, p: string)
    requires |p| == 3 && 1 <= |y| && Decimal.AllDigits(y) && Decimal.AllDigits(p)
    ensures ParseSessionId("MH-" + y + "-" + p) == Some((Decimal.Value(y), Decimal.Value(p)))
  {
    SplitSessionId(y, p);
  }

  /** The session id determines the year and suffix it was made from. */
  lemma SessionIdRoundTrip(year: nat, suffix: nat)
    requires suffix < 999
    ensures ParseSessionId(SessionId(year, suffix)) == Some((year, suffix))
  {
    var y := Decimal.FromNat(year);
    Decimal.FromNatBelowThousand(suffix);
    var p := Decimal.PadStart(Decimal.FromNat(suffix), 3, '0');
    Decimal.ValueOfFromNat(year);
    Decimal.ValueOfFromNat(suffix);
    Decimal.ValueOfZeroPadded(Decimal.FromNat(suffix), 3);
    ParseParts(y, p);
    assert SessionId(year, suffix) == "MH-" + y + "-" + p;
  }

  /** Two different suffixes in the same year give different ids. */
  lemma SessionIdInjective(year: nat, suffix: nat, suffix': nat)
    requires suffix < 999 && suffix' < 999
    ensures SessionId(year, suffix) == SessionId(year, suffix') ==> suffix == suffix'
  {
    SessionIdRoundTrip(year, suffix);
    SessionIdRoundTrip(year, suffix');
  }

  /** The page's state: userData, the analyse button and the panels it shows. */
  class Page {
    const name: string
    const age: int
    const id: string
    const emotionalStability: int
    var currentPhoto: Option<string>
    var emotionHistory: seq<HistoryEntry>
    var analyzeDisabled: bool
    /** The preview container is shown (and the upload area hidden). */
    var previewShown: bool
    var resultShown: bool
    var resultPanel: ResultPanel
    var profileShown: bool
    var profilePhoto: Option<string>
    var profileEmotion: string
    var profileHistory: seq<HistoryEntry>

    /** The preview is on screen exactly while there is a current photo. */
    ghost predicate Valid()
      reads this
    {
      previewShown == currentPhoto.Some?
    }

    /** The initial userData; year and suffix stand for the clock and Math.random. */
    constructor (year: nat, suffix: nat)
      requires suffix < 999
      ensures Valid()
      ensures name == "John Doe" && age == 30 && emotionalStability == 95
      ensures id == SessionId(year, suffix)
      ensures emotionHistory == [] && currentPhoto == None
      ensures !analyzeDisabled && !previewShown && !resultShown && resultPanel == Blank
      ensures !profileShown && profilePhoto == None && profileEmotion == "" && profileHistory == []
    {
      name, age, emotionalStability := "John Doe", 30, 95;
      id := SessionId(year, suffix);
      currentPhoto, emotionHistory := None, [];
      analyzeDisabled, previewShown, resultShown, resultPanel := false, false, false, Blank;
      profileShown, profilePhoto, profileEmotion, profileHistory := false, None, "", [];
    }

    /** handleImageUpload, with the reader's and the image's outcome given;
        shown is the message passed to showError, if any. */
    method HandleImageUpload(file: FileInfo, read: ReadOutcome) returns (d: UploadDecision, shown: Option<string>)
      requires Valid()
      modifies this`currentPhoto, this`previewShown, this`resultShown
      ensures Valid()
      ensures d == Validate(file, read)
      ensures shown.Some? <==> d.Rejected?
      ensures d.Rejected? ==> shown == Some(Message(d.reason))
      ensures d.Accepted? ==> currentPhoto == Some(d.data) && previewShown && !resultShown
      ensures !d.Accepted? ==> currentPhoto == old(currentPhoto) && previewShown == old(previewShown)
                               && resultShown == old(resultShown)
    {
      d := Validate(file, read);
      shown := if d.Rejected? then Some(Message(d.reason)) else None;
      if d.Accepted? {
        currentPhoto := Some(d.data);
        previewShown := true;
        resultShown := false;
      }
    }

    /** The click handler up to its await: the button is disabled. */
    method BeginAnalysis()
      requires Valid()
      ensures Valid()
      modifies this`analyzeDisabled
      ensures analyzeDisabled
    {
      analyzeDisabled := true;
    }

    /** addToHistory: the new entry, with the photo current at call time, goes in front.
        While the preview is shown that photo is present, so the entry records it. */
    method AddToHistory(result: EmotionResult, timestamp: string)
      requires Valid()
      ensures Valid()
      modifies this`emotionHistory
      ensures emotionHistory == Unshift(old(emotionHistory), HistoryEntry(result.emotion, result.confidence, timestamp, currentPhoto))
      ensures previewShown ==> emotionHistory[0].photo.Some?
    {
      emotionHistory := [HistoryEntry(result.emotion, result.confidence, timestamp, currentPhoto)] + emotionHistory;
    }

    /** updateProfile: photo, latest emotion and the first five history entries. */
    method UpdateProfile(result: EmotionResult)
      requires Valid()
      ensures Valid()
      modifies this`profilePhoto, this`profileEmotion, this`profileHistory, this`profileShown
      ensures profilePhoto == currentPhoto && profileEmotion == result.emotion
      ensures profileHistory == ProfileEntries(emotionHistory) && profileShown
      ensures previewShown ==> profilePhoto.Some?
    {
      profilePhoto := currentPhoto;
      profileEmotion := result.emotion;
      profileHistory := ProfileEntries(emotionHistory);
      profileShown := true;
    }

    /** The click handler after its await, given what the analysis resolved to:
        the result panel is shown; a resolved result is displayed, recorded and
        put on the profile; reading a field of undefined throws instead, and
        the catch shows the failure message. The finally re-enables the button. */
    method FinishAnalysis(resolution: Resolution, timestamp: string)
      requires Valid()
      ensures Valid()
      modifies this`resultShown, this`resultPanel, this`emotionHistory, this`analyzeDisabled,
               this`profilePhoto, this`profileEmotion, this`profileHistory, this`profileShown
      ensures !analyzeDisabled && resultShown
      ensures resolution == Undefined ==>
                resultPanel == AnalysisFailed && emotionHistory == old(emotionHistory)
                && profileShown == old(profileShown) && profilePhoto == old(profilePhoto)
                && profileEmotion == old(profileEmotion) && profileHistory == old(profileHistory)
      ensures resolution.Resolved? ==>
                var r := resolution.result;
                && resultPanel == Detected(r.emotion, r.confidence)
                && emotionHistory == Unshift(old(emotionHistory), HistoryEntry(r.emotion, r.confidence, timestamp, currentPhoto))
                && profileShown && profilePhoto == currentPhoto && profileEmotion == r.emotion
                && profileHistory == ProfileEntries(emotionHistory)
                && (previewShown ==> emotionHistory[0].photo.Some? && profilePhoto.Some?)
    {
      resultShown := true;
      match resolution {
        case Undefined =>
          resultPanel := AnalysisFailed;
        case Resolved(r) =>
          resultPanel := Detected(r.emotion, r.confidence);
          AddToHistory(r, timestamp);
          UpdateProfile(r);
      }
      analyzeDisabled := false;
    }

    /** One click with the page's own analyzeEmotion: the button is busy for the
        duration and ready afterwards, and nothing is recorded. */
    method AnalyzeClick(timestamp: string)
      requires Valid()
      ensures Valid()
      modifies this`resultShown, this`resultPanel, this`emotionHistory, this`analyzeDisabled,
               this`profilePhoto, this`profileEmotion, this`profileHistory, this`profileShown
      ensures !analyzeDisabled && resultShown && resultPanel == AnalysisFailed
      ensures emotionHistory == old(emotionHistory) && profileHistory == old(profileHistory)
      ensures profileShown == old(profileShown) && profilePhoto == old(profilePhoto)
      ensures profileEmotion == old(profileEmotion)
    {
      BeginAnalysis();
      FinishAnalysis(AnalyzeEmotion(), timestamp);
    }

    /** resetUpload: no current photo, the upload area back, the result hidden
        and the button ready. */
    method ResetUpload()
      modifies this`currentPhoto, this`previewShown, this`resultShown, this`analyzeDisabled
      ensures Valid()
      ensures currentPhoto == None && !previewShown && !resultShown && !analyzeDisabled
    {
      currentPhoto := None;
      previewShown := false;
      resultShown := false;
      analyzeDisabled := false;
    }
  }
}
