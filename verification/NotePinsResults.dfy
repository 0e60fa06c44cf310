/** What note-pins.ts promises over whole runs: notes are a function of the epoch, a settled draft
    loses nothing that was not read, and the publisher is single-flight and never forgets a change. */
module NotePinsResults {
  import opened NotePinsModel
  import opened NotePinsSteps
  import opened Options

  /** Two moments of a run with the same epoch have the same sent notes. */
  lemma NotesAreAFunctionOfTheEpoch(page: Page, s: State, moments: seq<Moment>, t: State)
    requires Reachable(page, s) && Leads(page, s, moments, t)
    ensures s.notes.epoch <= t.notes.epoch
    ensures s.notes.epoch == t.notes.epoch ==> Sent(page, s.notes.pins) == Sent(page, t.notes.pins)
  {
    ReachableInv(page, s);
    RunKeepsInv(page, s, moments, t);
  }

  lemma NeverMoreThanTenNotes(page: Page, s: State)
    requires Reachable(page, s)
    ensures |s.notes.pins| <= NOTES_MAX && |Sent(page, s.notes.pins)| <= NOTES_MAX
  {
    ReachableInv(page, s);
    SentIsShort(page, s.notes.pins);
  }

  lemma {:induction false} SentIsShort(page: Page, pins: seq<Pin>)
    ensures |Sent(page, pins)| <= |pins|
  {
    if pins != [] {
      SentIsShort(page, pins[..|pins| - 1]);
    }
  }

  /** `read`: prune, then the batch of the moment, or an error when the caller expected another epoch. */
  function Read(page: Page, s: State, expected: Option<nat>, present: set<Id>): (State, Option<Batch>) {
    var t := Prune(page, s, present);
    (t, if expected.Some? && expected.value != t.notes.epoch then None
        else Some(Batch(t.notes.epoch, Sent(page, t.notes.pins))))
  }

  /** A draft read at one moment and settled at a later one clears exactly the notes it carried:
      what the canvas still sends when it is cleared is what was read. */
  lemma SettlingLosesNothing(page: Page, s: State, expected: Option<nat>, present: set<Id>, moments: seq<Moment>,
                             t: State, instance: Option<string>, now: set<Id>)
    requires Reachable(page, s)
    requires Read(page, s, expected, present).1.Some?
    requires Leads(page, Read(page, s, expected, present).0, moments, t)
    requires Settles(page, t, Read(page, s, expected, present).1.value.epoch, true, instance)
    ensures var batch := Read(page, s, expected, present).1.value;
            && Sent(page, t.notes.pins) == batch.notes
            && Settle(page, t, batch.epoch, true, instance, now).notes.pins == []
  {
    ReachableInv(page, s);
    StepKeepsInv(page, s, Moment(Rendered, present));
    RunKeepsInv(page, Prune(page, s, present), moments, t);
    ClearMoves(page, SetBusy(t, false), now);
  }

  /** A note with text stays on the canvas and stays among the notes that are sent, with its targets and with its
      text at the beginning of the prompt, through any number of refused settlements, until the canvas is cleared,
      the draft is settled, its own editor is typed into, or one of its targets leaves. Once the publisher is quiet
      again the host holds it. */
  lemma {:induction false} UnsettledNoteStays(page: Page, s: State, moments: seq<Moment>, t: State, n: Standing)
    requires Reachable(page, s) && Leads(page, s, moments, t)
    requires Written(s.notes.pins, n) && AllSpare(page, s, moments, n)
    ensures Written(t.notes.pins, n)
    ensures exists note :: note in Sent(page, t.notes.pins) && Carries(note, n)
    ensures page.publishes && !t.publisher.unpublished && t.publisher.inFlight.None? ==>
              t.host.acks != []
              && exists note :: note in t.host.acks[|t.host.acks| - 1].notes && Carries(note, n)
  {
    ReachableInv(page, s);
    RunKeepsInv(page, s, moments, t);
    RunKeepsWritten(page, s, moments, t, n);
    WrittenIsSent(page, t.notes.pins, n);
  }

  /** At most one publish awaits its answer, and it carries the last batch sent. */
  lemma SingleFlight(page: Page, s: State, m: nat, n: nat)
    requires Reachable(page, s) && m in s.host.outstanding && n in s.host.outstanding
    ensures m == n == |s.host.sends| - 1 && s.host.outstanding[m] == s.host.sends[m]
  {
    ReachableInv(page, s);
  }

  /** Neither the epochs sent nor the epochs acknowledged go backwards. */
  lemma EpochsNeverGoBack(page: Page, s: State)
    requires Reachable(page, s)
    ensures Ascending(s.host.sends) && Ascending(s.host.acks)
  {
    ReachableInv(page, s);
  }

  /** When nothing is marked unpublished and nothing is in flight, the host holds the current notes. */
  lemma QuietMeansDelivered(page: Page, s: State)
    requires Reachable(page, s) && page.publishes
    requires !s.publisher.unpublished && s.publisher.inFlight.None?
    ensures s.host.acks != [] && s.host.acks[|s.host.acks| - 1] == Batch(s.notes.epoch, Sent(page, s.notes.pins))
  {
    ReachableInv(page, s);
  }

  /** A batch handed out at the present epoch holds the present notes. */
  ghost predicate StillHeld(page: Page, handed: seq<Batch>, s: State) {
    forall b :: b in handed ==>
      b.epoch <= s.notes.epoch && (b.epoch == s.notes.epoch ==> b.notes == Sent(page, s.notes.pins))
  }

  lemma {:induction false} HeldStays(page: Page, handed: seq<Batch>, s: State, t: State)
    requires StillHeld(page, handed, s) && Later(page, s, t)
    ensures StillHeld(page, handed, t)
    ensures StillHeld(page, handed + [Batch(t.notes.epoch, Sent(page, t.notes.pins))], t)
  {
  }

  /** What the traced events say about the state they lead to. */
  lemma {:induction false} MomentIsTraced(page: Page, moments: seq<Moment>, s: State, m: Moment)
    requires Leads(page, Initial(), moments, s) && Enabled(s, m)
    ensures var t := Step(page, s, m);
            && Leads(page, Initial(), moments + [m], t) && Later(page, s, t)
            && |t.notes.pins| <= NOTES_MAX && Ascending(t.host.sends)
            && (forall a, b :: a in t.host.outstanding && b in t.host.outstanding ==> a == b)
            && (page.publishes && !t.publisher.unpublished && t.publisher.inFlight.None? ==>
                  t.host.acks != []
                  && t.host.acks[|t.host.acks| - 1] == Batch(t.notes.epoch, Sent(page, t.notes.pins)))
            && (m.event.Settled? && Settles(page, s, m.event.expected, m.event.sent, m.event.instance) ==>
                  t.notes.pins == [])
  {
    LeadsSnoc(page, Initial(), moments, s, m);
    assert Reachable(page, s);
    ReachableInv(page, s);
    StepKeepsInv(page, s, m);
    if m.event.Settled? {
      ClearMoves(page, SetBusy(s, false), m.present);
    }
  }

  /** Pruning once leaves nothing stale, so the second pass of a redraw changes nothing. */
  lemma {:induction false} PruneOnce(pins: seq<Pin>, present: set<Id>)
    ensures !AnyStale(PrunePins(pins, present), present)
  {
    if pins != [] {
      var pin := pins[|pins| - 1];
      PruneOnce(pins[..|pins| - 1], present);
      PresentIsPresent(pin.elementIds, present);
      assert !Stale(PrunePin(pin, present), present);
      var pruned := PrunePins(pins[..|pins| - 1], present);
      forall i | 0 <= i < |PrunePins(pins, present)|
        ensures !Stale(PrunePins(pins, present)[i], present)
      {
        assert i < |pruned| ==> !Stale(pruned[i], present);
      }
    }
  }

  lemma {:induction false} PresentIsPresent(ids: seq<Id>, present: set<Id>)
    ensures forall i :: 0 <= i < |Present(ids, present)| ==> Present(ids, present)[i] in present
  {
    if ids != [] {
      PresentIsPresent(ids[..|ids| - 1], present);
    }
  }

  lemma {:induction false} PruneIsIdempotent(page: Page, s: State, present: set<Id>)
    ensures Prune(page, Prune(page, s, present), present) == Prune(page, s, present)
  {
    PruneOnce(s.notes.pins, present);
  }
}
