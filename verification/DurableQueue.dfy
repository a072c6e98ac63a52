/** The queue object: its methods change the state file and are proved against QueueModel. */
module DurableQueues {
  import opened Wrappers
  import opened Sequences
  import opened Events
  import QueueModel
  import opened QueueRefinement

  type Disk = QueueModel.Disk
  type QueueError = QueueModel.QueueError

  function AtLeast(low: nat, n: int): nat {
    if n < low then low else n
  }

  class DurableQueue {
    const lim: QueueModel.Limits
    /** The state path, as every queue object on that path sees it. */
    var disk: Disk

    constructor (disk: Disk, maxSeen: int, maxPending: int, maxStateBytes: int, sizeOf: Json -> nat)
      ensures this.disk == disk && lim.Clamped() && lim.sizeOf == sizeOf
      ensures if maxSeen >= 100 then lim.maxSeen == maxSeen else lim.maxSeen == 100
      ensures if maxPending >= 1 then lim.maxPending == maxPending else lim.maxPending == 1
      ensures if maxStateBytes >= 1 then lim.maxBytes == maxStateBytes else lim.maxBytes == 1
    {
      this.disk := disk;
      lim := QueueModel.Limits(AtLeast(100, maxSeen), AtLeast(1, maxPending), AtLeast(1, maxStateBytes), sizeOf);
    }

    /** `_trim`: walk backwards, keep what is new, turn the result round, cut it. */
    static method Trim(values: seq<string>, cap: nat) returns (r: seq<string>)
      ensures r == QueueModel.Trimmed(values, cap)
    {
      var result: seq<string>, known: set<string> := [], {};
      var i := |values|;
      while i > 0
        invariant 0 <= i <= |values|
        invariant Reverse(result) == QueueModel.KeepLast(values[i..])
        invariant forall x :: x in known <==> x in values[i..]
      {
        i := i - 1;
        var value := values[i];
        assert values[i..] == [value] + values[i + 1..];
        if value !in known {
          known := known + {value};
          ReverseSnoc(result, value);
          result := result + [value];
        }
      }
      assert values[0..] == values;
      result := Reverse(result);
      r := if cap == 0 || |result| <= cap then result else result[|result| - cap..];
    }

    /** `_save`: recompute the seen list, check the size, replace the file. */
    method Save(seen: seq<string>, pending: seq<HeyEvent>, fault: SaveOutcome) returns (r: Result<(), QueueError>)
      modifies this`disk
      ensures (disk, r) == QueueModel.Save(old(disk), seen, pending, fault, lim)
    {
      var i := 0;
      while i < |pending|
        invariant 0 <= i <= |pending|
        invariant forall j :: 0 <= j < i ==> pending[j].Valid()
      {
        if !pending[i].Valid() {
          return Err(QueueModel.InvalidEvent);
        }
        i := i + 1;
      }
      var pendingIds := QueueModel.Ids(pending);
      var pendingSet := set x | x in pendingIds;
      var completedSeen := Without(seen, pendingSet);
      var durableSeen := Trim(completedSeen, lim.maxSeen);
      var tail := Trim(pendingIds, |pendingIds|);
      durableSeen := durableSeen + tail;
      var state := QueueModel.State(durableSeen, pending);
      var encoded := QueueModel.Encode(state);
      if lim.sizeOf(encoded) > lim.maxBytes {
        return Err(QueueModel.WriteOversized);
      }
      if fault.FailedBefore? {
        return Err(QueueModel.SaveFailed);
      }
      disk := QueueModel.File(lim.sizeOf(encoded), Some(encoded));
      if fault.FailedAfter? {
        return Err(QueueModel.SaveFailed);
      }
      return Ok(());
    }

    /** `ingest`: authorize, load, refuse what is seen, append, save. */
    method Ingest(e: HeyEvent, authorize: HeyEvent -> bool, fault: SaveOutcome) returns (r: Result<bool, QueueError>)
      modifies this`disk
      ensures (disk, r) == QueueModel.Ingest(old(disk), e, authorize(e), fault, lim)
      ensures !authorize(e) ==> disk == old(disk) && r == Ok(false)
      ensures authorize(e) && QueueModel.Load(old(disk), lim).Err? ==>
                disk == old(disk) && r == Err(QueueModel.Load(old(disk), lim).error)
    {
      if !authorize(e) {
        return Ok(false);
      }
      var value := QueueModel.Load(disk, lim);
      if value.Err? {
        return Err(value.error);
      }
      var seen := value.value.seen;
      if e.eventId in seen {
        return Ok(false);
      }
      if |value.value.pending| >= lim.maxPending {
        return Err(QueueModel.QueueFull);
      }
      seen := seen + [e.eventId];
      var pending := value.value.pending + [e];
      var saved := Save(seen, pending, fault);
      if saved.Err? {
        return Err(saved.error);
      }
      return Ok(true);
    }

    method Pending() returns (r: Result<seq<HeyEvent>, QueueError>)
      ensures QueueModel.Load(disk, lim).Ok? ==> r == Ok(QueueModel.Load(disk, lim).value.pending)
      ensures QueueModel.Load(disk, lim).Err? ==> r == Err(QueueModel.Load(disk, lim).error)
    {
      var value := QueueModel.Load(disk, lim);
      r := if value.Ok? then Ok(value.value.pending) else Err(value.error);
    }

    /** `complete`: load, drop the identity from the pending list, save. */
    method Complete(id: string, fault: SaveOutcome) returns (r: Result<(), QueueError>)
      modifies this`disk
      ensures (disk, r) == QueueModel.Complete(old(disk), id, fault, lim)
      ensures QueueModel.Load(old(disk), lim).Err? ==>
                disk == old(disk) && r == Err(QueueModel.Load(old(disk), lim).error)
      ensures forall l :: lim.Clamped() && Represents(old(disk), l, lim) && r.Ok? ==>
                            Represents(disk, Effect(l, CompleteOp(id)), lim)
    {
      ghost var before := disk;
      var value := QueueModel.Load(disk, lim);
      if value.Err? {
        return Err(value.error);
      }
      var pending := QueueModel.Remove(value.value.pending, id);
      r := Save(value.value.seen, pending, fault);
      forall l | lim.Clamped() && Represents(before, l, lim)
        ensures r.Ok? ==> Represents(disk, Effect(l, CompleteOp(id)), lim)
      {
        CompleteRefines(before, l, id, fault, lim);
      }
    }
  }

  lemma {:induction false} ReverseSnoc<T>(s: seq<T>, x: T)
    ensures Reverse(s + [x]) == [x] + Reverse(s)
  {
    if s == [] {
      assert s + [x] == [x];
    } else {
      assert (s + [x])[1..] == s[1..] + [x];
      ReverseSnoc(s[1..], x);
    }
  }
}
