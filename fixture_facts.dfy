/**
 * Facts about the compiled-in Shang-Chi dataset that the dashboard relies on
 * without checking them: enough captions for the progress division, frame
 * numbers in order, actor references that always resolve, and the counts the
 * summary tiles show.
 *
 * The facts are stated over the constants themselves; where a general lemma
 * of the dashboard model turns a pointwise fact into a quantified one, the
 * proof calls it.
 */
module FixtureFacts {
  import opened ShangChiData
  import opened Dashboard
  import CaptionSequencer

  // ---------------------------------------------------------------------------
  // Captions
  // ---------------------------------------------------------------------------

  /** Each frame number is below the next one. */
  ghost predicate FramesStepUp(cs: seq<Caption>) {
    forall i :: 0 <= i < |cs| - 1 ==> cs[i].frameNum < cs[i + 1].frameNum
  }

  /** Frame numbers that step up between neighbours increase along the whole sequence. */
  lemma {:induction false} FramesStepUpIsIncreasing(cs: seq<Caption>, i: nat, j: nat)
    requires FramesStepUp(cs) && i < j < |cs|
    ensures cs[i].frameNum < cs[j].frameNum
    decreases j - i
  {
    if i + 1 < j {
      FramesStepUpIsIncreasing(cs, i + 1, j);
    }
  }

  lemma CaptionsAreEnough()
    ensures |captions| == 30
    ensures CaptionSequencer.WellFormed(captions, CaptionSequencer.InitialState(captions))
    ensures |CaptionSequencer.InitialState(captions).visibleCaptions| == 5
  {
  }

  lemma CaptionFramesIncrease()
    ensures captions[0].frameNum == 1 && captions[|captions| - 1].frameNum == 7800
    ensures forall i, j :: 0 <= i < j < |captions| ==> captions[i].frameNum < captions[j].frameNum
  {
    assert FramesStepUp(captions);
    forall i, j | 0 <= i < j < |captions|
      ensures captions[i].frameNum < captions[j].frameNum
    {
      FramesStepUpIsIncreasing(captions, i, j);
    }
  }

  /** Every caption's frame label is `F` and four digits. */
  lemma CaptionFrameLabelsHaveFiveCharacters()
    ensures forall i :: 0 <= i < |captions| ==> |FrameLabel(captions[i].frameNum)| == 5
  {
    CaptionFramesIncrease();
    forall i | 0 <= i < |captions|
      ensures |FrameLabel(captions[i].frameNum)| == 5
    {
      assert captions[i].frameNum <= 7800;
      ShortFrameLabel(captions[i].frameNum);
    }
  }

  /** Pressing play on the mounted dashboard and letting 29 ticks fire ends on the last caption, stopped. */
  lemma FixturePlaysThrough()
    ensures var started := CaptionSequencer.ToggleStep(captions, CaptionSequencer.InitialState(captions));
      && started == CaptionSequencer.Started(captions)
      && CaptionSequencer.RunTicks(captions, started, 29) == CaptionSequencer.Snapshot(false, 29, captions)
  {
    CaptionSequencer.PlaybackStopsAtEnd(captions);
  }

  // ---------------------------------------------------------------------------
  // Actors and the references to them
  // ---------------------------------------------------------------------------

  function Ids(actors: seq<Actor>): seq<string> {
    seq(|actors|, i requires 0 <= i < |actors| => actors[i].id)
  }

  const ExpectedIds: seq<string> := [
    "ACTOR-01", "ACTOR-02", "ACTOR-03", "ACTOR-04", "ACTOR-05", "ACTOR-06",
    "ACTOR-07", "ACTOR-08", "ACTOR-09", "ACTOR-10", "ACTOR-11", "ACTOR-12"
  ]

  lemma ActorIdsInOrder()
    ensures Ids(actors) == ExpectedIds
  {
    assert forall i :: 0 <= i < |actors| ==> actors[i].id == ExpectedIds[i];
  }

  /** The number written in the last two characters of an `ACTOR-nn` id. */
  function IdNumber(id: string): int {
    if |id| < 8 then -1 else (id[6] as int - '0' as int) * 10 + (id[7] as int - '0' as int)
  }

  lemma ActorIdNumbers()
    ensures forall i :: 0 <= i < |actors| ==> IdNumber(actors[i].id) == i + 1
  {
  }

  lemma ActorIdsDistinct()
    ensures DistinctIds(actors)
  {
    ActorIdNumbers();
    forall i, j | 0 <= i < j < |actors|
      ensures actors[i].id != actors[j].id
    {
      assert IdNumber(actors[i].id) != IdNumber(actors[j].id);
    }
  }

  /** An id that appears among the actors' ids is found by the lookup. */
  lemma IdInListIsFound(actors: seq<Actor>, id: string)
    requires id in Ids(actors)
    ensures FindActor(actors, id).Some? && FindActor(actors, id).value.id == id
  {
    var i :| 0 <= i < |actors| && Ids(actors)[i] == id;
  }

  /** Every involved-actor id of every event names an existing actor, so every chip shows a name. */
  lemma InvolvedActorsResolve()
    ensures forall i, k :: 0 <= i < |violenceEvents| && 0 <= k < |violenceEvents[i].involvedActors| ==>
      FindActor(actors, violenceEvents[i].involvedActors[k]).Some?
  {
    ActorIdsInOrder();
    assert forall i, k :: 0 <= i < |violenceEvents| && 0 <= k < |violenceEvents[i].involvedActors| ==>
      violenceEvents[i].involvedActors[k] in ExpectedIds;
    forall i, k | 0 <= i < |violenceEvents| && 0 <= k < |violenceEvents[i].involvedActors|
      ensures FindActor(actors, violenceEvents[i].involvedActors[k]).Some?
    {
      IdInListIsFound(actors, violenceEvents[i].involvedActors[k]);
    }
  }

  lemma ActorThreatLevels()
    ensures ThreatLevels(actors) == ThreatColumn
  {
  }

  /** The actors' threat levels, in the order of `actors`. */
  const ThreatColumn: seq<Level> := [High, Critical, Critical, Critical, High, High, High, Low, Low, Low, Low, Low]

  lemma CriticalThreatCount()
    ensures CountLevel(ThreatColumn, Critical) == 3
  {
  }

  lemma HighThreatCount()
    ensures CountLevel(ThreatColumn, High) == 4
  {
  }

  lemma MediumThreatCount()
    ensures CountLevel(ThreatColumn, Medium) == 0
  {
  }

  lemma LowThreatCount()
    ensures CountLevel(ThreatColumn, Low) == 5
  {
  }

  /** The threat-matrix tiles show 3 critical, 4 high, 0 medium and 5 low actors. */
  lemma ThreatCounts()
    ensures ThreatStatsOf(actors) == ThreatStats(3, 4, 0, 5)
  {
    ActorThreatLevels();
    CriticalThreatCount();
    HighThreatCount();
    MediumThreatCount();
    LowThreatCount();
  }

  // ---------------------------------------------------------------------------
  // Events and the weapon inventory
  // ---------------------------------------------------------------------------

  lemma EventIdsAreOneToEight()
    ensures |violenceEvents| == 8
    ensures forall i :: 0 <= i < |violenceEvents| ==> violenceEvents[i].id == i + 1
  {
  }

  /** The events' severities, in the order of `violenceEvents`. */
  const SeverityColumn: seq<Level> := [Medium, High, Critical, Critical, Critical, Critical, Critical, High]

  lemma EventSeverities()
    ensures Severities(violenceEvents) == SeverityColumn
  {
  }

  lemma CriticalSeverityCount()
    ensures CountLevel(SeverityColumn, Critical) == 5
  {
  }

  lemma HighSeverityCount()
    ensures CountLevel(SeverityColumn, High) == 2
  {
  }

  lemma MediumSeverityCount()
    ensures CountLevel(SeverityColumn, Medium) == 1
  {
  }

  /** The severity tiles show 5 critical, 2 high and 1 medium event. */
  lemma SeverityCounts()
    ensures SeverityTilesOf(violenceEvents) == SeverityTiles(5, 2, 1)
  {
    EventSeverities();
    CriticalSeverityCount();
    HighSeverityCount();
    MediumSeverityCount();
  }

  lemma WeaponSummaryWellFormed()
    ensures forall w :: w in weaponSummary ==> w.count > 0
    ensures forall i, k :: 0 <= i < |weaponSummary| && 0 <= k < |weaponSummary[i].holders| ==>
      FindActor(actors, weaponSummary[i].holders[k]).Some?
  {
    ActorIdsInOrder();
    assert forall i, k :: 0 <= i < |weaponSummary| && 0 <= k < |weaponSummary[i].holders| ==>
      weaponSummary[i].holders[k] in ExpectedIds;
    forall i, k | 0 <= i < |weaponSummary| && 0 <= k < |weaponSummary[i].holders|
      ensures FindActor(actors, weaponSummary[i].holders[k]).Some?
    {
      IdInListIsFound(actors, weaponSummary[i].holders[k]);
    }
  }

  // ---------------------------------------------------------------------------
  // Labels the tables show for this dataset
  // ---------------------------------------------------------------------------

  lemma FirstFrameLabel()
    ensures FrameLabel(captions[0].frameNum) == "F0001"
  {
    assert DecimalString(1) == "1";
  }

  lemma LastFrameLabel()
    ensures FrameLabel(captions[|captions| - 1].frameNum) == "F7800"
  {
    assert DecimalString(7) == "7";
    assert DecimalString(78) == "78";
    assert DecimalString(780) == "780";
    assert DecimalString(7800) == "7800";
  }
}
