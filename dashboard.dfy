/**
 * The pure derivations the dashboard in src/App.tsx computes from the dataset
 * on every render: counts by level, the involved-actor lookup, the zero-padded
 * frame label, and the "text before the first separator" labels.
 */
module Dashboard {
  import opened ShangChiData

  datatype Option<T> = None | Some(value: T)

  // ---------------------------------------------------------------------------
  // Counting by level (threatStats, the severity summary tiles)
  // ---------------------------------------------------------------------------

  /** Number of entries of `levels` equal to `l`: `xs.filter(x => x === l).length`. */
  function CountLevel(levels: seq<Level>, l: Level): (c: nat)
    ensures c <= |levels|
    ensures c == 0 <==> l !in levels
  {
    if |levels| == 0 then 0
    else (if levels[0] == l then 1 else 0) + CountLevel(levels[1..], l)
  }

  /** The count agrees with the multiplicity of `l` in the multiset of `levels`. */
  lemma {:induction false} CountLevelIsMultiplicity(levels: seq<Level>, l: Level)
    ensures CountLevel(levels, l) == multiset(levels)[l]
  {
    if |levels| > 0 {
      CountLevelIsMultiplicity(levels[1..], l);
      assert levels == [levels[0]] + levels[1..];
    }
  }

  /** Because the level is a closed four-value union, the four counts partition the sequence. */
  lemma {:induction false} LevelCountsPartition(levels: seq<Level>)
    ensures CountLevel(levels, Critical) + CountLevel(levels, High)
          + CountLevel(levels, Medium) + CountLevel(levels, Low) == |levels|
  {
    if |levels| > 0 {
      LevelCountsPartition(levels[1..]);
    }
  }

  /** The threat level of each actor, in order. */
  function ThreatLevels(actors: seq<Actor>): seq<Level> {
    seq(|actors|, i requires 0 <= i < |actors| => actors[i].threatLevel)
  }

  /** The severity of each event, in order. */
  function Severities(events: seq<ViolenceEvent>): seq<Level> {
    seq(|events|, i requires 0 <= i < |events| => events[i].severity)
  }

  datatype ThreatStats = ThreatStats(critical: nat, high: nat, medium: nat, low: nat)

  /** `threatStats`: one filter-and-count per threat level over all actors. */
  function ThreatStatsOf(actors: seq<Actor>): (r: ThreatStats)
    ensures r.critical + r.high + r.medium + r.low == |actors|
    ensures r.critical == multiset(ThreatLevels(actors))[Critical]
    ensures r.high == multiset(ThreatLevels(actors))[High]
    ensures r.medium == multiset(ThreatLevels(actors))[Medium]
    ensures r.low == multiset(ThreatLevels(actors))[Low]
  {
    var levels := ThreatLevels(actors);
    LevelCountsPartition(levels);
    CountLevelIsMultiplicity(levels, Critical);
    CountLevelIsMultiplicity(levels, High);
    CountLevelIsMultiplicity(levels, Medium);
    CountLevelIsMultiplicity(levels, Low);
    ThreatStats(CountLevel(levels, Critical), CountLevel(levels, High),
                CountLevel(levels, Medium), CountLevel(levels, Low))
  }

  /** The three severity tiles of the events tab (there is no tile for low). */
  datatype SeverityTiles = SeverityTiles(critical: nat, high: nat, medium: nat)

  function SeverityTilesOf(events: seq<ViolenceEvent>): (r: SeverityTiles)
    ensures r.critical + r.high + r.medium + CountLevel(Severities(events), Low) == |events|
    ensures r.critical == multiset(Severities(events))[Critical]
    ensures r.high == multiset(Severities(events))[High]
    ensures r.medium == multiset(Severities(events))[Medium]
  {
    var levels := Severities(events);
    LevelCountsPartition(levels);
    CountLevelIsMultiplicity(levels, Critical);
    CountLevelIsMultiplicity(levels, High);
    CountLevelIsMultiplicity(levels, Medium);
    SeverityTiles(CountLevel(levels, Critical), CountLevel(levels, High), CountLevel(levels, Medium))
  }

  // ---------------------------------------------------------------------------
  // Involved-actor lookup
  // ---------------------------------------------------------------------------

  /** `actors.find(a => a.id === id)`: the first actor with that id, if any. */
  function FindActor(actors: seq<Actor>, id: string): (r: Option<Actor>)
    ensures r.None? <==> forall i :: 0 <= i < |actors| ==> actors[i].id != id
    ensures r.Some? ==> r.value.id == id
    ensures r.Some? ==> exists i :: 0 <= i < |actors| && actors[i] == r.value
                                    && forall j :: 0 <= j < i ==> actors[j].id != id
  {
    if |actors| == 0 then None
    else if actors[0].id == id then Some(actors[0])
    else
      var r := FindActor(actors[1..], id);
      assert r.Some? ==> exists i :: 1 <= i < |actors| && actors[i] == r.value
                                     && forall j :: 0 <= j < i ==> actors[j].id != id by {
        if r.Some? {
          var k :| 0 <= k < |actors| - 1 && actors[1..][k] == r.value
                   && forall j :: 0 <= j < k ==> actors[1..][j].id != id;
          assert actors[k + 1] == r.value;
          assert forall j :: 1 <= j < k + 1 ==> actors[j].id == actors[1..][j - 1].id;
        }
      }
      r
  }

  /** The chip text for one involved actor: `id (name)` on a hit, the bare id on a miss. */
  function InvolvedActorLabel(actors: seq<Actor>, id: string): (r: string)
    ensures |id| <= |r| && r[..|id|] == id
    ensures (forall i :: 0 <= i < |actors| ==> actors[i].id != id) <==> r == id
  {
    match FindActor(actors, id)
    case Some(a) => id + " (" + a.name + ")"
    case None => id
  }

  predicate DistinctIds(actors: seq<Actor>) {
    forall i, j :: 0 <= i < j < |actors| ==> actors[i].id != actors[j].id
  }

  /** With distinct ids, the chip of an actor's id names exactly that actor. */
  lemma LookupNamesActor(actors: seq<Actor>, i: nat)
    requires DistinctIds(actors) && i < |actors|
    ensures InvolvedActorLabel(actors, actors[i].id) == actors[i].id + " (" + actors[i].name + ")"
  {
    var r := FindActor(actors, actors[i].id);
    var k :| 0 <= k < |actors| && actors[k] == r.value
             && forall j :: 0 <= j < k ==> actors[j].id != actors[i].id;
    assert k == i;
  }

  /** The chips of one event, in the order of its `involvedActors`. */
  function InvolvedActorLabels(actors: seq<Actor>, ids: seq<string>): (r: seq<string>)
    ensures |r| == |ids|
    ensures forall k :: 0 <= k < |ids| ==> r[k] == InvolvedActorLabel(actors, ids[k])
  {
    if |ids| == 0 then []
    else
      var rest := InvolvedActorLabels(actors, ids[1..]);
      assert forall k :: 1 <= k < |ids| ==> ids[k] == ids[1..][k - 1];
      [InvolvedActorLabel(actors, ids[0])] + rest
  }

  // ---------------------------------------------------------------------------
  // Frame label: 'F' + String(n).padStart(4, '0')
  // ---------------------------------------------------------------------------

  predicate IsDigit(c: char) { '0' <= c <= '9' }

  predicate AllDigits(s: string) { forall i :: 0 <= i < |s| ==> IsDigit(s[i]) }

  function DigitChar(d: nat): (c: char)
    requires d < 10
    ensures IsDigit(c) && c as int - '0' as int == d
  {
    ('0' as int + d) as char
  }

  /** `String(n)` for a non-negative integer: shortest decimal form, no leading zero. */
  function DecimalString(n: nat): (s: string)
    ensures 1 <= |s| && AllDigits(s)
    ensures |s| > 1 ==> s[0] != '0'
    ensures n < 10 <==> |s| == 1
  {
    if n < 10 then [DigitChar(n)] else DecimalString(n / 10) + [DigitChar(n % 10)]
  }

  /** The numeric value of a string of decimal digits. */
  function DecimalValue(s: string): nat
    requires AllDigits(s)
  {
    if |s| == 0 then 0
    else DecimalValue(s[..|s| - 1]) * 10 + (s[|s| - 1] as int - '0' as int)
  }

  lemma {:induction false} DecimalRoundTrip(n: nat)
    ensures DecimalValue(DecimalString(n)) == n
  {
    if n >= 10 {
      DecimalRoundTrip(n / 10);
      var s := DecimalString(n);
      assert s[..|s| - 1] == DecimalString(n / 10);
    }
  }

  /** A string of `k` copies of `c`. */
  function Repeat(c: char, k: nat): (r: string)
    ensures |r| == k && forall i :: 0 <= i < k ==> r[i] == c
  {
    if k == 0 then [] else [c] + Repeat(c, k - 1)
  }

  /** Leading zeros do not change the value of a digit string. */
  lemma {:induction false} LeadingZerosKeepValue(k: nat, s: string)
    requires AllDigits(s)
    ensures AllDigits(Repeat('0', k) + s)
    ensures DecimalValue(Repeat('0', k) + s) == DecimalValue(s)
    decreases |s|, k
  {
    var z := Repeat('0', k);
    if |s| == 0 {
      assert z + s == z;
      if k > 0 {
        assert z[..k - 1] == Repeat('0', k - 1) + [];
        LeadingZerosKeepValue(k - 1, []);
      }
    } else {
      var p := s[..|s| - 1];
      LeadingZerosKeepValue(k, p);
      assert (z + s)[..|z + s| - 1] == z + p;
    }
  }

  /** `s.padStart(width, fill)`: `fill` repeated on the left up to `width`; a long `s` is kept. */
  function PadStart(s: string, width: nat, fill: char): (r: string)
    ensures |r| == if |s| >= width then |s| else width
    ensures r[|r| - |s|..] == s
    ensures forall i :: 0 <= i < |r| - |s| ==> r[i] == fill
  {
    if |s| >= width then s else Repeat(fill, width - |s|) + s
  }

  /** Behind a prefix, a left-padded string shows the fill first and then the original string. */
  lemma LabelLayout(prefix: string, s: string, width: nat)
    ensures var r := prefix + PadStart(s, width, '0');
      && r[|r| - |s|..] == s
      && forall i :: |prefix| <= i < |r| - |s| ==> r[i] == '0'
  {
    var p := PadStart(s, width, '0');
    var r := prefix + p;
    assert r[|r| - |s|..] == p[|p| - |s|..];
    assert forall i :: |prefix| <= i < |r| - |s| ==> r[i] == p[i - |prefix|];
  }

  /** Zero-padding a digit string keeps it a digit string with the same value. */
  lemma PaddedDigits(d: string, width: nat)
    requires AllDigits(d)
    ensures AllDigits(PadStart(d, width, '0'))
    ensures DecimalValue(PadStart(d, width, '0')) == DecimalValue(d)
  {
    var p := PadStart(d, width, '0');
    LeadingZerosKeepValue(|p| - |d|, d);
    assert p == Repeat('0', |p| - |d|) + d;
  }

  /** The frame label shown in the feed and the control bar. */
  function FrameLabel(n: nat): (r: string)
    ensures |r| == 1 + (if |DecimalString(n)| >= 4 then |DecimalString(n)| else 4)
    ensures r[0] == 'F' && AllDigits(r[1..])
    ensures DecimalValue(r[1..]) == n
    ensures r[|r| - |DecimalString(n)|..] == DecimalString(n)
    ensures forall i :: 1 <= i < |r| - |DecimalString(n)| ==> r[i] == '0'
  {
    var digits := DecimalString(n);
    var padded := PadStart(digits, 4, '0');
    DecimalRoundTrip(n);
    PaddedDigits(digits, 4);
    LabelLayout("F", digits, 4);
    var r := "F" + padded;
    assert r[1..] == padded;
    r
  }

  /** Frame numbers below 10000 give labels of exactly five characters. */
  lemma {:induction false} ShortFrameLabel(n: nat)
    requires n < 10000
    ensures |FrameLabel(n)| == 5
  {
    assert |DecimalString(n)| <= 4 by {
      if n >= 10 {
        if n >= 100 {
          if n >= 1000 {
            assert |DecimalString(n / 1000)| == 1;
            assert |DecimalString(n / 100)| == 2;
            assert |DecimalString(n / 10)| == 3;
          } else {
            assert |DecimalString(n / 10)| == 2;
          }
        }
      }
    }
  }

  // ---------------------------------------------------------------------------
  // "First segment before a separator": s.split(sep)[0], and trim()
  // ---------------------------------------------------------------------------

  /** `sep` occurs in `s` starting at index `i`. */
  predicate OccursAt(s: string, sep: string, i: int) {
    0 <= i && i + |sep| <= |s| && s[i..i + |sep|] == sep
  }

  /** An occurrence in `s[1..]` at `j` is an occurrence in `s` at `j + 1`, and back. */
  lemma ShiftOccurrence(s: string, sep: string, j: nat)
    requires |s| > 0
    ensures OccursAt(s[1..], sep, j) <==> OccursAt(s, sep, j + 1)
  {
    if j + 1 + |sep| <= |s| {
      assert s[1..][j..j + |sep|] == s[j + 1..j + 1 + |sep|];
    }
  }

  /** `s.split(sep)[0]`: everything before the first occurrence of `sep`, or all of `s`. */
  function FirstSegment(s: string, sep: string): (r: string)
    requires |sep| > 0
    ensures r <= s
    ensures forall j :: 0 <= j < |r| ==> !OccursAt(s, sep, j)
    ensures r == s || OccursAt(s, sep, |r|)
    decreases |s|
  {
    if |s| < |sep| then s
    else if s[..|sep|] == sep then []
    else
      var rest := FirstSegment(s[1..], sep);
      ShiftOccurrence(s, sep, |rest|);
      assert !OccursAt(s, sep, 0);
      assert forall j :: 1 <= j < |rest| + 1 ==> !OccursAt(s, sep, j) by {
        forall j | 1 <= j < |rest| + 1 ensures !OccursAt(s, sep, j) {
          ShiftOccurrence(s, sep, j - 1);
        }
      }
      [s[0]] + rest
  }

  /** Splitting `a + sep + b` at its first `sep` gives back `a` when `a + sep` holds no earlier `sep`. */
  lemma FirstSegmentOfJoin(a: string, sep: string, b: string)
    requires |sep| > 0
    requires forall j :: 0 <= j < |a| ==> !OccursAt(a + sep, sep, j)
    ensures FirstSegment(a + sep + b, sep) == a
  {
    var s := a + sep + b;
    var r := FirstSegment(s, sep);
    assert s[|a|..|a| + |sep|] == sep;
    assert OccursAt(s, sep, |a|);
    forall j | 0 <= j < |a|
      ensures !OccursAt(s, sep, j)
    {
      if OccursAt(s, sep, j) {
        assert s[j..j + |sep|] == (a + sep)[j..j + |sep|];
        assert OccursAt(a + sep, sep, j);
      }
    }
    assert |r| == |a|;
    assert r == s[..|a|] == a;
  }

  /** The characters `String.prototype.trim` removes (white space and line terminators). */
  predicate IsTrimmable(c: char) {
    c == ' ' || c == '\t' || c == '\n' || c == '\r' || c == '\U{000B}' || c == '\U{000C}'
    || c == '\U{00A0}' || c == '\U{1680}' || ('\U{2000}' <= c <= '\U{200A}')
    || c == '\U{2028}' || c == '\U{2029}' || c == '\U{202F}' || c == '\U{205F}'
    || c == '\U{3000}' || c == '\U{FEFF}'
  }

  /** Length of the run of white space at the start of `s`. */
  function LeadingSpace(s: string): (n: nat)
    ensures n <= |s|
    ensures forall k :: 0 <= k < n ==> IsTrimmable(s[k])
    ensures n < |s| ==> !IsTrimmable(s[n])
  {
    if |s| > 0 && IsTrimmable(s[0]) then
      var m := LeadingSpace(s[1..]);
      assert forall k :: 1 <= k < m + 1 ==> s[k] == s[1..][k - 1];
      m + 1
    else 0
  }

  /** Where the run of white space ending at `e` starts, never going below `lo`. */
  function TrailingSpaceFrom(s: string, lo: nat, e: nat): (r: nat)
    requires lo <= e <= |s|
    ensures lo <= r <= e
    ensures forall k :: r <= k < e ==> IsTrimmable(s[k])
    ensures r > lo ==> !IsTrimmable(s[r - 1])
    decreases e
  {
    if e > lo && IsTrimmable(s[e - 1]) then TrailingSpaceFrom(s, lo, e - 1) else e
  }

  /** `r` is the infix of `s` at `i`, and everything around it in `s` is white space. */
  predicate StrippedAt(s: string, r: string, i: int) {
    && 0 <= i && i + |r| <= |s| && s[i..i + |r|] == r
    && (forall k :: 0 <= k < i ==> IsTrimmable(s[k]))
    && (forall k :: i + |r| <= k < |s| ==> IsTrimmable(s[k]))
  }

  /** `s.trim()`: the infix of `s` left after removing white space on both ends. */
  function Trim(s: string): (r: string)
    ensures exists i :: StrippedAt(s, r, i)
    ensures |r| > 0 ==> !IsTrimmable(r[0]) && !IsTrimmable(r[|r| - 1])
  {
    var i := LeadingSpace(s);
    var e := TrailingSpaceFrom(s, i, |s|);
    var r := s[i..e];
    assert StrippedAt(s, r, i);
    r
  }

  lemma TrimIdempotent(s: string)
    ensures Trim(Trim(s)) == Trim(s)
  {
  }

  // ---------------------------------------------------------------------------
  // The label helpers of the actor cards and the actor table
  // ---------------------------------------------------------------------------

  /** `p` is the index of the first `c` in `s`, or `|s|` when there is none. */
  predicate FirstIndexOf(s: string, c: char, p: int) {
    && 0 <= p <= |s|
    && (forall j :: 0 <= j < p ==> s[j] != c)
    && (p == |s| || s[p] == c)
  }

  /** Splitting at a one-character separator stops at the first occurrence of that character. */
  lemma FirstSegmentAtChar(s: string, c: char)
    ensures FirstIndexOf(s, c, |FirstSegment(s, [c])|)
    ensures s[..|FirstSegment(s, [c])|] == FirstSegment(s, [c])
  {
    var w := FirstSegment(s, [c]);
    forall j | 0 <= j < |w| ensures s[j] != c {
      assert !OccursAt(s, [c], j);
      assert s[j..j + 1] == [s[j]];
    }
    if |w| < |s| {
      assert OccursAt(s, [c], |w|);
      assert s[|w|..|w| + 1] == [s[|w|]];
    }
  }

  /** What trimming keeps of a string without `c` holds no `c` either. */
  lemma StrippedKeepsOut(s: string, r: string, i: int, c: char)
    requires StrippedAt(s, r, i) && c !in s
    ensures c !in r
  {
    forall k | 0 <= k < |r| ensures r[k] != c {
      assert r[k] == s[i + k];
    }
  }

  /** Actor card: the weapon chip shows the weapon's first word, unless the actor is unarmed. */
  function WeaponChip(a: Actor): (r: Option<string>)
    ensures r.None? <==> a.weapon == "None" || a.weapon == "None (Martial Arts)"
    ensures r.Some? ==> r.value <= a.weapon && FirstIndexOf(a.weapon, ' ', |r.value|)
  {
    if a.weapon == "None" || a.weapon == "None (Martial Arts)" then None
    else
      FirstSegmentAtChar(a.weapon, ' ');
      Some(FirstSegment(a.weapon, " "))
  }

  /** Card and table: the behaviour up to the first " / ". */
  function BehaviorSummary(a: Actor): (r: string)
    ensures r <= a.behavior
    ensures forall j :: 0 <= j < |r| ==> !OccursAt(a.behavior, " / ", j)
    ensures r == a.behavior || OccursAt(a.behavior, " / ", |r|)
  {
    FirstSegment(a.behavior, " / ")
  }

  /** Table: the role up to the first " / ". */
  function RoleSummary(a: Actor): (r: string)
    ensures r <= a.role
    ensures forall j :: 0 <= j < |r| ==> !OccursAt(a.role, " / ", j)
    ensures r == a.role || OccursAt(a.role, " / ", |r|)
  {
    FirstSegment(a.role, " / ")
  }

  /** Table: the label badge up to the first " — ". */
  function LabelBadge(a: Actor): (r: string)
    ensures r <= a.labelText
    ensures forall j :: 0 <= j < |r| ==> !OccursAt(a.labelText, " — ", j)
    ensures r == a.labelText || OccursAt(a.labelText, " — ", |r|)
  {
    FirstSegment(a.labelText, " — ")
  }

  /** Table: the weapon cell, the weapon name before "(" trimmed, or "Unarmed" for "None". */
  function WeaponCell(a: Actor): (r: string)
    ensures a.weapon == "None" ==> r == "Unarmed"
    ensures a.weapon != "None" ==>
      && '(' !in r
      && (|r| > 0 ==> !IsTrimmable(r[0]) && !IsTrimmable(r[|r| - 1]))
      && exists p, i :: FirstIndexOf(a.weapon, '(', p) && StrippedAt(a.weapon[..p], r, i)
  {
    if a.weapon != "None" then
      var w := FirstSegment(a.weapon, "(");
      var r := Trim(w);
      var i :| StrippedAt(w, r, i);
      FirstSegmentAtChar(a.weapon, '(');
      StrippedKeepsOut(w, r, i, '(');
      r
    else "Unarmed"
  }
}
