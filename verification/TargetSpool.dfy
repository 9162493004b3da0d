/** Spooling one stream to a destination through a temporary file and a rename. */
module TargetSpool {
  import opened Common

  /** One read: its bytes, and what came with them. */
  datatype End = More | Eof | Broken
  datatype ReadResult = ReadResult(data: Bytes, end: End)

  /** A finite stream: only its last read ends it. */
  predicate Stream(steps: seq<ReadResult>) {
    && |steps| > 0 && !steps[|steps| - 1].end.More?
    && forall i :: 0 <= i < |steps| - 1 ==> steps[i].end.More?
  }

  function Joined(steps: seq<ReadResult>): Bytes {
    if |steps| == 0 then [] else Joined(steps[..|steps| - 1]) + steps[|steps| - 1].data
  }

  /** The bytes of the reads, first to last. */
  lemma {:induction false} JoinedInOrder(r: ReadResult, rest: seq<ReadResult>)
    ensures Joined([]) == [] && Joined([r] + rest) == r.data + Joined(rest)
    decreases |rest|
  {
    var all := [r] + rest;
    if |rest| == 0 {
      assert all[..0] == [];
    } else {
      assert all[..|all| - 1] == [r] + rest[..|rest| - 1];
      JoinedInOrder(r, rest[..|rest| - 1]);
    }
  }

  datatype Fault = NoFault | CancelledAt(read: nat) | WriteFails(read: nat) | FinishFails

  /** Whether the fault comes in the stream's way. */
  predicate Strikes(f: Fault, steps: seq<ReadResult>) {
    match f
    case NoFault => false
    case CancelledAt(k) => k < |steps|
    case WriteFails(k) => k < |steps| && |steps[k].data| > 0
    case FinishFails => true
  }

  /** A directory with the one destination and the temporary files beside it. */
  class Dir {
    var dst: Option<Bytes>
    var tmps: map<nat, Bytes>

    /**
     * The destination changes only by one rename of a complete file; whatever goes wrong, it is what it
     * was and the temporary file is gone.  total counts the bytes written either way.
     */
    method SpoolReader(serial: nat, steps: seq<ReadResult>, fault: Fault) returns (total: nat, ok: bool)
      requires serial !in tmps && Stream(steps)
      modifies this
      ensures tmps == old(tmps)
      ensures ok <==> steps[|steps| - 1].end.Eof? && !Strikes(fault, steps)
      ensures ok ==> dst == Some(Joined(steps)) && total == |Joined(steps)|
      ensures !ok ==> dst == old(dst)
    {
      tmps := tmps[serial := []];
      total := 0;
      var i := 0;
      while true
        invariant 0 <= i < |steps| && dst == old(dst)
        invariant serial in tmps && tmps - {serial} == old(tmps)
        invariant tmps[serial] == Joined(steps[..i]) && total == |Joined(steps[..i])|
        invariant forall k :: 0 <= k < i ==> fault != CancelledAt(k) && (|steps[k].data| > 0 ==> fault != WriteFails(k))
        decreases |steps| - i
      {
        if fault == CancelledAt(i) { break; }
        var r := steps[i];
        assert steps[..i + 1][..i] == steps[..i];
        assert Joined(steps[..i + 1]) == Joined(steps[..i]) + r.data;
        if |r.data| > 0 {
          if fault == WriteFails(i) { break; }
          tmps := tmps[serial := tmps[serial] + r.data];
          total := total + |r.data|;
        }
        assert tmps[serial] == Joined(steps[..i]) + r.data;
        if r.end.Eof? {
          assert i == |steps| - 1;
          assert steps[..i + 1] == steps;
          if fault == FinishFails { break; }
          dst := Some(tmps[serial]);
          tmps := tmps - {serial};
          return total, true;
        }
        if r.end.Broken? { break; }
        i := i + 1;
      }
      tmps := tmps - {serial};
      return total, false;
    }
  }
}
