/**
 Automatic choice of a capture device: the udev video devices are scored, sorted best first and tried
 in order. What udev says of a device and whether a node can be opened are inputs.
 */
module CameraChoice {
  import opened Options

  const DECODER := "video-dec"
  const FALLBACK := "/dev/video0"
  const U32: int := 0x1_0000_0000

  /** The properties read from one udev device; number is what sscanf("/dev/video%u") yields for the node. */
  datatype Device = Device(node: Option<string>, caps: Option<string>, bus: Option<string>, model: Option<string>,
                           driver: Option<string>, number: Option<nat>)

  /** What one entry of the enumeration leads to. */
  datatype Entry = NoSyspath | NoDevice | Found(dev: Device)

  datatype Candidate = Candidate(score: int, index: int, path: string)

  predicate At(s: string, sub: string, i: nat) {
    i + |sub| <= |s| && s[i..i + |sub|] == sub
  }

  predicate Contains(s: string, sub: string) {
    exists i: nat :: i <= |s| && At(s, sub, i)
  }

  function LowerChar(c: char): char {
    if 'A' <= c <= 'Z' then c - 'A' + 'a' else c
  }

  function Lower(s: string): string {
    seq(|s|, i requires 0 <= i < |s| => LowerChar(s[i]))
  }

  /** A property holds a string in which sub occurs. */
  predicate Mentions(p: Option<string>, sub: string) {
    p.Some? && Contains(p.value, sub)
  }

  predicate Preferred(model: string, prefer: Option<string>) {
    prefer.Some? && prefer.value != "" && Contains(Lower(model), prefer.value)
  }

  method ScoreCaptureDevice(dev: Device, prefer: Option<string>) returns (score: int)
    ensures score == Score(dev, prefer)
  {
    score := 0;
    if dev.bus == Some("usb") {
      score := score + 50;
    }
    if dev.model.Some? {
      var m := Lower(dev.model.value);
      if Contains(m, "camera") {
        score := score + 80;
      }
      if prefer.Some? && prefer.value != "" && Contains(m, prefer.value) {
        score := score + 150;
      }
    }
    if dev.driver == Some("uvcvideo") {
      score := score + 20;
    }
    if Mentions(dev.node, DECODER) {
      score := score - 1000;
    }
  }

  function Bonus(b: bool, points: int): int {
    if b then points else 0
  }

  function Score(dev: Device, prefer: Option<string>): int {
    Bonus(dev.bus == Some("usb"), 50)
    + Bonus(dev.model.Some? && Contains(Lower(dev.model.value), "camera"), 80)
    + Bonus(dev.model.Some? && Preferred(dev.model.value, prefer), 150)
    + Bonus(dev.driver == Some("uvcvideo"), 20)
    - Bonus(Mentions(dev.node, DECODER), 1000)
  }

  /** A device of which nothing is known scores nothing; each property then counts by itself. */
  lemma ScoreParts(dev: Device, prefer: Option<string>)
    ensures Score(Device(None, dev.caps, None, None, None, dev.number), prefer) == 0
    ensures Score(dev, prefer) ==
            Score(dev.(bus := None), prefer) + if dev.bus == Some("usb") then 50 else 0
    ensures Score(dev, prefer) ==
            Score(dev.(driver := None), prefer) + if dev.driver == Some("uvcvideo") then 20 else 0
    ensures Score(dev, None) ==
            Score(dev.(model := None), None) + if dev.model.Some? && SaysCamera(dev.model.value) then 80 else 0
    ensures Score(dev, prefer) ==
            Score(dev.(node := None), prefer) - if Mentions(dev.node, DECODER) then 1000 else 0
    ensures Score(dev, prefer) == Score(dev, None) + if IsPreferred(dev, prefer) then 150 else 0
  {
  }

  predicate SaysCamera(model: string) { Contains(Lower(model), "camera") }

  predicate IsPreferred(dev: Device, prefer: Option<string>) {
    dev.model.Some? && Preferred(dev.model.value, prefer)
  }

  /** Upper and lower case in the model make no difference. */
  lemma ModelCaseIgnored(model: string, prefer: Option<string>)
    ensures Lower(Lower(model)) == Lower(model)
    ensures Preferred(model, prefer) <==> Preferred(Lower(model), prefer)
    ensures SaysCamera(model) <==> SaysCamera(Lower(model))
  {
    assert Lower(Lower(model)) == Lower(model);
  }

  /** All bonuses together do not make up for the penalty. */
  lemma NegativeIffDecoder(dev: Device, prefer: Option<string>)
    ensures Score(dev, prefer) < 0 <==> Mentions(dev.node, DECODER)
    ensures -1000 <= Score(dev, prefer) <= 300
  {
  }

  predicate HasCapital(s: string) {
    exists k :: 0 <= k < |s| && 'A' <= s[k] <= 'Z'
  }

  lemma LowerAt(model: string, sub: string, i: nat)
    requires i + |sub| <= |model| && !HasCapital(sub) && At(model, sub, i)
    ensures At(Lower(model), sub, i)
  {
    forall k | 0 <= k < |sub| ensures Lower(model)[i..i + |sub|][k] == sub[k] {
      assert model[i..i + |sub|][k] == sub[k];
    }
    assert Lower(model)[i..i + |sub|] == sub;
  }

  lemma CapitalNowhere(model: string, sub: string)
    requires HasCapital(sub)
    ensures !Contains(Lower(model), sub)
  {
    var k :| 0 <= k < |sub| && 'A' <= sub[k] <= 'Z';
    var m := Lower(model);
    forall i: nat | i + |sub| <= |m| ensures !At(m, sub, i) {
      assert m[i..i + |sub|][k] == LowerChar(model[i + k]);
    }
  }

  /**
   The preference is compared as written with the model in lower case: one that the model contains
   counts exactly when it holds no capital letter.
   */
  lemma PreferenceCounts(model: string, prefer: string)
    requires prefer != "" && Contains(model, prefer)
    ensures Preferred(model, Some(prefer)) <==> !HasCapital(prefer)
  {
    if HasCapital(prefer) {
      CapitalNowhere(model, prefer);
    } else {
      var i: nat :| i <= |model| && At(model, prefer, i);
      LowerAt(model, prefer, i);
    }
  }

  /** A preference that holds a capital letter never changes a score. */
  lemma CapitalPreferenceIgnored(dev: Device, prefer: string)
    requires HasCapital(prefer)
    ensures Score(dev, Some(prefer)) == Score(dev, None)
  {
    if dev.model.Some? {
      CapitalNowhere(dev.model.value, prefer);
    }
  }

  /** A camera whose model contains the preference exactly as written, and gets nothing for it. */
  lemma ExactModelIgnored()
    ensures var dev := Device(Some("/dev/video0"), Some("capture"), None, Some("HD_Webcam"), None, Some(0));
            Contains("HD_Webcam", "Webcam") && Score(dev, Some("Webcam")) == Score(dev, None)
  {
    assert At("HD_Webcam", "Webcam", 3);
    assert "Webcam"[0] == 'W';
    var dev := Device(Some("/dev/video0"), Some("capture"), None, Some("HD_Webcam"), None, Some(0));
    CapitalPreferenceIgnored(dev, "Webcam");
  }

  /** The conversion of sscanf's unsigned to int. */
  function VideoIndex(number: Option<nat>): int {
    match number
    case None => -1
    case Some(n) => var w := n % U32; if w < U32 / 2 then w else w - U32
  }

  /** The comparison of std::sort. */
  predicate Better(a: Candidate, b: Candidate) {
    if a.score != b.score then a.score > b.score else a.index < b.index
  }

  ghost predicate BestFirst(s: seq<Candidate>) {
    forall i, j :: 0 <= i < j < |s| ==> !Better(s[j], s[i])
  }

  /** An entry that names a capture device with a numbered node is a candidate. */
  predicate Eligible(e: Entry) {
    && e.Found? && e.dev.node.Some? && Mentions(e.dev.caps, "capture")
    && VideoIndex(e.dev.number) >= 0
  }

  function CandidateOf(e: Entry, prefer: Option<string>): Candidate
    requires Eligible(e)
  {
    Candidate(Score(e.dev, prefer), VideoIndex(e.dev.number), e.dev.node.value)
  }

  function Insert(s: seq<Candidate>, c: Candidate): (r: seq<Candidate>)
    requires BestFirst(s)
    ensures BestFirst(r) && multiset(r) == multiset(s) + multiset{c}
  {
    if s == [] || !Better(c, s[|s| - 1]) then
      s + [c]
    else
      var n := |s| - 1;
      assert s == s[..n] + [s[n]];
      var r := Insert(s[..n], c);
      Above(s[..n], r, c, s[n]);
      r + [s[n]]
  }

  lemma Above(s: seq<Candidate>, r: seq<Candidate>, c: Candidate, last: Candidate)
    requires multiset(r) == multiset(s) + multiset{c}
    requires !Better(last, c) && forall i :: 0 <= i < |s| ==> !Better(last, s[i])
    ensures forall i :: 0 <= i < |r| ==> !Better(last, r[i])
  {
    forall i | 0 <= i < |r| ensures !Better(last, r[i]) {
      assert r[i] in multiset(r);
      assert r[i] in s || r[i] == c;
    }
  }

  /** Sorting best first; which of two equals comes first is not promised. */
  function SortCandidates(s: seq<Candidate>): (r: seq<Candidate>)
    ensures BestFirst(r) && multiset(r) == multiset(s)
  {
    if s == [] then []
    else
      assert s == s[..|s| - 1] + [s[|s| - 1]];
      Insert(SortCandidates(s[..|s| - 1]), s[|s| - 1])
  }

  /** The candidates in the order of the enumeration. */
  function Candidates(entries: seq<Entry>, prefer: Option<string>): seq<Candidate> {
    if entries == [] then []
    else
      var n := |entries| - 1;
      Candidates(entries[..n], prefer) + if Eligible(entries[n]) then [CandidateOf(entries[n], prefer)] else []
  }

  method GatherCandidates(entries: seq<Entry>, prefer: Option<string>) returns (cs: seq<Candidate>)
    ensures cs == Candidates(entries, prefer)
  {
    cs := [];
    for n := 0 to |entries|
      invariant cs == Candidates(entries[..n], prefer)
    {
      assert entries[..n + 1][..n] == entries[..n];
      match entries[n] {
        case NoSyspath =>
        case NoDevice =>
        case Found(dev) =>
          if dev.node.Some? && Mentions(dev.caps, "capture") {
            var idx := VideoIndex(dev.number);
            if idx >= 0 {
              var score := ScoreCaptureDevice(dev, prefer);
              cs := cs + [Candidate(score, idx, dev.node.value)];
            }
          }
      }
    }
    assert entries[..|entries|] == entries;
  }

  ghost predicate CandidateAt(entries: seq<Entry>, prefer: Option<string>, i: int, c: Candidate) {
    0 <= i < |entries| && Eligible(entries[i]) && CandidateOf(entries[i], prefer) == c
  }

  /** s holds the candidates of the entries and nothing else. */
  ghost predicate Lists(s: seq<Candidate>, entries: seq<Entry>, prefer: Option<string>) {
    forall c :: c in s <==> exists i :: CandidateAt(entries, prefer, i, c)
  }

  /** Each candidate is that of an eligible entry, and each eligible entry has one. */
  lemma {:induction false} CandidatesAre(entries: seq<Entry>, prefer: Option<string>, c: Candidate)
    ensures c in Candidates(entries, prefer) <==> exists i :: CandidateAt(entries, prefer, i, c)
  {
    hide Eligible, Score;
    if entries != [] {
      var n := |entries| - 1;
      CandidatesAre(entries[..n], prefer, c);
      assert forall i :: 0 <= i < n ==> CandidateAt(entries[..n], prefer, i, c) == CandidateAt(entries, prefer, i, c);
      if i :| CandidateAt(entries[..n], prefer, i, c) {
        assert CandidateAt(entries, prefer, i, c);
      }
      if i :| CandidateAt(entries, prefer, i, c) {
        assert i < n ==> CandidateAt(entries[..n], prefer, i, c);
      }
      assert CandidateAt(entries, prefer, n, c) <==> Eligible(entries[n]) && CandidateOf(entries[n], prefer) == c;
    }
  }

  /** Entry i can be chosen: a candidate that is no decoder and opens. */
  ghost predicate Usable(entries: seq<Entry>, prefer: Option<string>, ready: string -> bool, i: int) {
    && 0 <= i < |entries| && Eligible(entries[i])
    && Score(entries[i].dev, prefer) >= 0 && ready(entries[i].dev.node.value)
  }

  /** path is the node of a usable entry than which no usable one is better. */
  ghost predicate Best(entries: seq<Entry>, prefer: Option<string>, ready: string -> bool, path: string) {
    exists i ::
      && Usable(entries, prefer, ready, i) && entries[i].dev.node == Some(path)
      && forall j :: Usable(entries, prefer, ready, j) ==>
           !Better(CandidateOf(entries[j], prefer), CandidateOf(entries[i], prefer))
  }

  /** A preferred device is ahead of any other, but ties when it has no other bonus and the other one has them all. */
  lemma PreferredWins(dev: Device, other: Device, prefer: Option<string>)
    requires IsPreferred(dev, prefer) && !IsPreferred(other, prefer)
    requires !Mentions(dev.node, DECODER)
    ensures Score(dev, prefer) >= Score(other, prefer)
    ensures Score(dev, prefer) == Score(other, prefer) ==> Score(dev, None) == 0 && Score(other, None) == 150
  {
    ScoreParts(dev, prefer);
    ScoreParts(other, prefer);
    NegativeIffDecoder(dev, None);
    assert Score(other, None) <= 150;
  }

  /**
   Where some usable device is preferred, the chosen one is preferred too, except that a device with
   every other bonus can tie with preferred ones that have none.
   */
  lemma PreferredChosen(entries: seq<Entry>, prefer: Option<string>, ready: string -> bool, path: string, p: int)
    returns (i: int)
    requires Best(entries, prefer, ready, path)
    requires Usable(entries, prefer, ready, p) && IsPreferred(entries[p].dev, prefer)
    ensures Usable(entries, prefer, ready, i) && entries[i].dev.node == Some(path)
    ensures IsPreferred(entries[i].dev, prefer) ||
            (Score(entries[i].dev, None) == 150 && Score(entries[p].dev, None) == 0)
  {
    i :| Usable(entries, prefer, ready, i) && entries[i].dev.node == Some(path)
         && forall j :: Usable(entries, prefer, ready, j) ==>
              !Better(CandidateOf(entries[j], prefer), CandidateOf(entries[i], prefer));
    assert !Better(CandidateOf(entries[p], prefer), CandidateOf(entries[i], prefer));
    if !IsPreferred(entries[i].dev, prefer) {
      NegativeIffDecoder(entries[p].dev, prefer);
      PreferredWins(entries[p].dev, entries[i].dev, prefer);
    }
  }

  /** An entry can be chosen exactly if it is a capture node with a number below 2^31, no decoder, and opens. */
  lemma UsableIff(entries: seq<Entry>, prefer: Option<string>, ready: string -> bool, i: int)
    ensures Usable(entries, prefer, ready, i) <==>
            && 0 <= i < |entries| && entries[i].Found?
            && var dev := entries[i].dev;
               && dev.node.Some? && dev.caps.Some? && Contains(dev.caps.value, "capture")
               && dev.number.Some? && dev.number.value % U32 < U32 / 2
               && !Contains(dev.node.value, DECODER) && ready(dev.node.value)
    ensures Usable(entries, prefer, ready, i) && entries[i].dev.number.value < U32 ==>
              CandidateOf(entries[i], prefer).index == entries[i].dev.number.value
  {
    hide Contains, Score;
    if 0 <= i < |entries| && entries[i].Found? {
      NegativeIffDecoder(entries[i].dev, prefer);
    }
  }

  /** None for the enumeration stands for a udev context or enumeration that could not be created. */
  method ProbeDefaultCaptureDevice(enumeration: Option<seq<Entry>>, prefer: Option<string>, ready: string -> bool)
    returns (path: string)
    ensures enumeration.Some? && (exists i :: Usable(enumeration.value, prefer, ready, i)) ==>
              Best(enumeration.value, prefer, ready, path)
    ensures enumeration.None? || (forall i :: !Usable(enumeration.value, prefer, ready, i)) ==> path == FALLBACK
    ensures !Contains(path, DECODER)
  {
    FallbackIsNoDecoder();
    if enumeration.None? {
      return FALLBACK;
    }
    var entries := enumeration.value;
    var cs := GatherCandidates(entries, prefer);
    var sorted := SortCandidates(cs);
    SortedAre(entries, prefer);
    hide Contains, SortCandidates, Candidates, Usable, Lists, BestFirst, Best;
    var n := FirstUsable(sorted, ready);
    if n < |sorted| {
      Chosen(entries, prefer, ready, sorted, n);
      return sorted[n].path;
    }
    NoneUsable(entries, prefer, ready, sorted);
    path := FALLBACK;
  }

  /** The scan: the first candidate that is no decoder and opens. */
  method FirstUsable(sorted: seq<Candidate>, ready: string -> bool) returns (n: nat)
    ensures n <= |sorted| && (n < |sorted| ==> sorted[n].score >= 0 && ready(sorted[n].path))
    ensures forall k :: 0 <= k < n ==> sorted[k].score < 0 || !ready(sorted[k].path)
  {
    n := 0;
    while n < |sorted| && !(sorted[n].score >= 0 && ready(sorted[n].path))
      invariant n <= |sorted|
      invariant forall k :: 0 <= k < n ==> sorted[k].score < 0 || !ready(sorted[k].path)
    {
      n := n + 1;
    }
  }

  lemma SortedAre(entries: seq<Entry>, prefer: Option<string>)
    ensures Lists(SortCandidates(Candidates(entries, prefer)), entries, prefer)
  {
    hide SortCandidates, Candidates, CandidateAt;
    var s := SortCandidates(Candidates(entries, prefer));
    forall c ensures c in s <==> exists i :: CandidateAt(entries, prefer, i, c) {
      assert c in s <==> c in multiset(s);
      CandidatesAre(entries, prefer, c);
    }
  }

  lemma NoneUsable(entries: seq<Entry>, prefer: Option<string>, ready: string -> bool, sorted: seq<Candidate>)
    requires Lists(sorted, entries, prefer)
    requires forall k :: 0 <= k < |sorted| ==> sorted[k].score < 0 || !ready(sorted[k].path)
    ensures forall i :: !Usable(entries, prefer, ready, i)
  {
    hide Eligible, Score;
    forall i ensures !Usable(entries, prefer, ready, i) {
      if 0 <= i < |entries| && Eligible(entries[i]) {
        assert CandidateAt(entries, prefer, i, CandidateOf(entries[i], prefer));
        assert CandidateOf(entries[i], prefer) in sorted;
      }
    }
  }

  lemma Chosen(entries: seq<Entry>, prefer: Option<string>, ready: string -> bool, sorted: seq<Candidate>, n: nat)
    requires BestFirst(sorted) && n < |sorted|
    requires Lists(sorted, entries, prefer)
    requires forall k :: 0 <= k < n ==> sorted[k].score < 0 || !ready(sorted[k].path)
    requires sorted[n].score >= 0 && ready(sorted[n].path)
    ensures Best(entries, prefer, ready, sorted[n].path) && !Contains(sorted[n].path, DECODER)
    ensures exists i :: Usable(entries, prefer, ready, i)
  {
    assert sorted[n] in sorted;
    var i :| CandidateAt(entries, prefer, i, sorted[n]);
    NegativeIffDecoder(entries[i].dev, prefer);
    assert Usable(entries, prefer, ready, i);
    forall j | Usable(entries, prefer, ready, j)
      ensures !Better(CandidateOf(entries[j], prefer), CandidateOf(entries[i], prefer))
    {
      var c := CandidateOf(entries[j], prefer);
      assert CandidateAt(entries, prefer, j, c);
      assert c in sorted;
      var k :| 0 <= k < |sorted| && sorted[k] == c;
      assert k >= n;
    }
  }

  lemma FallbackIsNoDecoder()
    ensures !Contains(FALLBACK, DECODER)
  {
    forall i: nat | i + |DECODER| <= |FALLBACK| ensures !At(FALLBACK, DECODER, i) {
      assert DECODER[1] == 'i' && FALLBACK[i..i + |DECODER|][1] == FALLBACK[i + 1];
    }
  }
}
