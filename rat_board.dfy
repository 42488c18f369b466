/** The rescue board (Modules/Rat_Board.py): a dict from board index to
    rescue, kept in insertion order as Python dicts are, with its lookups and
    its three updates. A rescue is reduced to the attributes the board
    reads. */
module RatBoard {
  import opened Values

  /** The parts of a Rescue the board compares or indexes by. */
  datatype BoardRescue = BoardRescue(caseId: Option<Uuid>, client: Option<string>,
                                     createdAt: Option<int>, boardIndex: Option<int>)

  /** The argument of `in`: a Rescue, or some other object. */
  datatype Item = RescueItem(rescue: BoardRescue) | OtherObject

  datatype BoardError =
    | IndexNotFreeError(message: string)
    /** `dict.pop` of an absent index (`None` when the rescue has no index). */
    | PopKeyError(index: Option<int>)
    /** The TypeError of `in` for an object that is not a Rescue. */
    | NotARescueError

  /** The board's exception classes. They derive from BaseException, not
      Exception, so an `except Exception` does not catch them. */
  datatype BoardExceptionClass = RescueBoardException | RescueNotFoundException | RescueNotChangedException | IndexNotFree

  function BoardBase(c: BoardExceptionClass): Option<BoardExceptionClass>
    ensures c == RescueBoardException <==> BoardBase(c).None?
    ensures BoardBase(c).Some? ==> BoardBase(c).value == RescueBoardException
  {
    if c == RescueBoardException then None else Some(RescueBoardException)
  }

  /** `if rescue.board_index:` holds for a set, non-zero index. */
  predicate HasIndex(r: BoardRescue)
  {
    r.boardIndex.Some? && r.boardIndex.value != 0
  }

  /** `rescue.case_id == other.case_id`, or the same client created at the
      same moment. Two rescues without a case id count as the same. */
  predicate SameCase(stored: BoardRescue, other: BoardRescue)
  {
    stored.caseId == other.caseId || (stored.client == other.client && stored.createdAt == other.createdAt)
  }

  /** An `int` as an f-string shows it. */
  function IntText(i: int): (s: string)
    ensures s != [] && (i < 0 <==> s[0] == '-')
    ensures -10 < i < 10 ==> |s| == (if i < 0 then 2 else 1)
    decreases if i < 0 then 1 - i else i
  {
    if i < 0 then "-" + NatText(-i) else NatText(i)
  }

  function NatText(n: nat): (s: string)
    ensures s != [] && s[0] != '-'
    ensures n < 10 <==> |s| == 1
  {
    var digit := "0123456789"[n % 10];
    if n < 10 then [digit] else NatText(n / 10) + [digit]
  }

  /** The message of append's IndexNotFreeError; the source joins its two
      halves without a space. */
  function IndexNotFreeMessage(index: int): string
  {
    "Index " + IntText(index) + " is in use. If you want to overwrite this you must" + "set the `overwrite` flag."
  }

  // --- a dict as its entries in insertion order ------------------------------

  type Entries = seq<(int, BoardRescue)>

  ghost predicate DistinctKeys(es: Entries)
  {
    forall i, j :: 0 <= i < j < |es| ==> es[i].0 != es[j].0
  }

  /** The mapping the entries represent. */
  function AsMap(es: Entries): map<int, BoardRescue>
    decreases |es|
  {
    if es == [] then map[] else AsMap(es[1..])[es[0].0 := es[0].1]
  }

  /** `d[k] = v`: an existing key keeps its place, a new one goes last. */
  function Assign(es: Entries, k: int, v: BoardRescue): Entries
    decreases |es|
  {
    if es == [] then [(k, v)]
    else if es[0].0 == k then [(k, v)] + es[1..]
    else [es[0]] + Assign(es[1..], k, v)
  }

  /** `d.pop(k)` when `k` is present. */
  function Without(es: Entries, k: int): Entries
    decreases |es|
  {
    if es == [] then []
    else if es[0].0 == k then Without(es[1..], k)
    else [es[0]] + Without(es[1..], k)
  }

  lemma {:induction false} AsMapKeys(es: Entries)
    requires DistinctKeys(es)
    ensures AsMap(es).Keys == set i | 0 <= i < |es| :: es[i].0
    ensures forall i :: 0 <= i < |es| ==> AsMap(es)[es[i].0] == es[i].1
    decreases |es|
  {
    if es != [] {
      AsMapKeys(es[1..]);
      assert forall i :: 1 <= i < |es| ==> es[1..][i - 1] == es[i];
      forall i | 1 <= i < |es|
        ensures AsMap(es)[es[i].0] == es[i].1
      {
        assert es[i].0 != es[0].0;
        assert AsMap(es[1..])[es[1..][i - 1].0] == es[1..][i - 1].1;
      }
      var s1 := set i | 0 <= i < |es[1..]| :: es[1..][i].0;
      var s := set i | 0 <= i < |es| :: es[i].0;
      assert s == s1 + {es[0].0} by {
        forall x | x in s ensures x in s1 + {es[0].0} {
          var i :| 0 <= i < |es| && es[i].0 == x;
          if i > 0 {
            assert es[1..][i - 1].0 == x;
          }
        }
      }
    }
  }

  /** A key is in the dict exactly when some entry carries it. */
  lemma InAsMapIff(es: Entries, k: int)
    requires DistinctKeys(es)
    ensures k in AsMap(es) <==> exists i :: 0 <= i < |es| && es[i].0 == k
  {
    AsMapKeys(es);
  }

  /** The first entry's key occurs nowhere after it. */
  lemma HeadNotInTail(es: Entries)
    requires DistinctKeys(es) && es != []
    ensures DistinctKeys(es[1..]) && es[0].0 !in AsMap(es[1..])
  {
    forall i | 0 <= i < |es[1..]|
      ensures es[1..][i].0 != es[0].0
    {
      assert es[1..][i] == es[i + 1];
    }
    InAsMapIff(es[1..], es[0].0);
  }

  /** Putting an entry in front of entries that do not carry its key. */
  lemma ConsDistinct(e: (int, BoardRescue), rest: Entries)
    requires DistinctKeys(rest) && forall i :: 0 <= i < |rest| ==> rest[i].0 != e.0
    ensures DistinctKeys([e] + rest) && AsMap([e] + rest) == AsMap(rest)[e.0 := e.1]
  {
    var es := [e] + rest;
    assert es[1..] == rest;
    forall i, j | 0 <= i < j < |es|
      ensures es[i].0 != es[j].0
    {
      assert es[j] == rest[j - 1];
      if i > 0 {
        assert es[i] == rest[i - 1];
      }
    }
  }

  /** Assignment updates the dict at `k` only; an existing key keeps its
      place, and a new key is appended. */
  lemma {:induction false} AssignSpec(es: Entries, k: int, v: BoardRescue)
    requires DistinctKeys(es)
    ensures DistinctKeys(Assign(es, k, v))
    ensures AsMap(Assign(es, k, v)) == AsMap(es)[k := v]
    ensures k in AsMap(es) ==> (|Assign(es, k, v)| == |es| &&
      forall i :: 0 <= i < |es| ==> Assign(es, k, v)[i].0 == es[i].0)
    ensures k !in AsMap(es) ==> Assign(es, k, v) == es + [(k, v)]
    decreases |es|
  {
    if es != [] {
      HeadNotInTail(es);
      if es[0].0 == k {
        forall i | 0 <= i < |es[1..]|
          ensures es[1..][i].0 != k
        {
          assert es[1..][i] == es[i + 1];
        }
        ConsDistinct((k, v), es[1..]);
        assert forall i :: 1 <= i < |es| ==> Assign(es, k, v)[i] == es[i];
      } else {
        AssignSpec(es[1..], k, v);
        var rest := Assign(es[1..], k, v);
        assert Assign(es, k, v) == [es[0]] + rest;
        forall i | 0 <= i < |rest|
          ensures rest[i].0 != es[0].0
        {
          if k in AsMap(es[1..]) {
            assert rest[i].0 == es[1..][i].0 == es[i + 1].0;
          } else if i < |es[1..]| {
            assert rest[i] == es[1..][i] == es[i + 1];
          }
        }
        ConsDistinct(es[0], rest);
        if k in AsMap(es[1..]) {
          forall i | 0 <= i < |es|
            ensures Assign(es, k, v)[i].0 == es[i].0
          {
            if i > 0 {
              assert Assign(es, k, v)[i] == rest[i - 1];
              assert es[1..][i - 1] == es[i];
            }
          }
        } else {
          assert [es[0]] + (es[1..] + [(k, v)]) == es + [(k, v)];
        }
      }
    }
  }

  /** Removal drops exactly `k` and keeps the others, each still an entry
      of the dict. */
  lemma {:induction false} WithoutSpec(es: Entries, k: int)
    requires DistinctKeys(es)
    ensures DistinctKeys(Without(es, k))
    ensures AsMap(Without(es, k)) == AsMap(es) - {k}
    ensures forall i :: 0 <= i < |Without(es, k)| ==> Without(es, k)[i] in es && Without(es, k)[i].0 != k
    decreases |es|
  {
    if es != [] {
      HeadNotInTail(es);
      WithoutSpec(es[1..], k);
      var rest := Without(es[1..], k);
      if es[0].0 != k {
        forall i | 0 <= i < |rest|
          ensures rest[i].0 != es[0].0
        {
          var j :| 0 <= j < |es[1..]| && es[1..][j] == rest[i];
          assert es[j + 1] == rest[i];
        }
        ConsDistinct(es[0], rest);
      }
    }
  }

  class Board {
    /** `_rescues`, in insertion order. */
    var entries: Entries

    ghost predicate Valid()
      reads this
    {
      DistinctKeys(entries)
    }

    /** The board as the dict it is. */
    function Rescues(): map<int, BoardRescue>
      reads this
    {
      AsMap(entries)
    }

    constructor ()
      ensures Valid() && entries == [] && Rescues() == map[]
    {
      entries := [];
    }

    /** `other in board`: TypeError for anything but a Rescue; otherwise
        whether some stored rescue is the same case. */
    method Contains(other: Item) returns (r: Result<bool, BoardError>)
      ensures other.OtherObject? ==> r == Err(NotARescueError)
      ensures other.RescueItem? ==>
        r == Ok(exists i :: 0 <= i < |entries| && SameCase(entries[i].1, other.rescue))
    {
      if other.OtherObject? {
        return Err(NotARescueError);
      }
      var i := 0;
      while i < |entries|
        invariant 0 <= i <= |entries|
        invariant forall k :: 0 <= k < i ==> !SameCase(entries[k].1, other.rescue)
      {
        var stored := entries[i].1;
        if stored.caseId == other.rescue.caseId {
          return Ok(true);
        } else if stored.client == other.rescue.client && stored.createdAt == other.rescue.createdAt {
          return Ok(true);
        }
        i := i + 1;
      }
      r := Ok(false);
    }

    /** `find_by_index`. */
    method FindByIndex(index: int) returns (r: Option<BoardRescue>)
      ensures r == if index in Rescues() then Some(Rescues()[index]) else None
    {
      if index in Rescues() {
        r := Some(Rescues()[index]);
      } else {
        r := None;
      }
    }

    /** `find_by_name`: the first rescue, in insertion order, of `client`. */
    method FindByName(client: string) returns (r: Option<BoardRescue>)
      ensures r.None? <==> forall i :: 0 <= i < |entries| ==> entries[i].1.client != Some(client)
      ensures r.Some? ==> (exists i :: 0 <= i < |entries| && entries[i].1 == r.value &&
                            r.value.client == Some(client) && forall k :: 0 <= k < i ==> entries[k].1.client != Some(client))
    {
      var i := 0;
      while i < |entries|
        invariant 0 <= i <= |entries|
        invariant forall k :: 0 <= k < i ==> entries[k].1.client != Some(client)
      {
        if entries[i].1.client == Some(client) {
          return Some(entries[i].1);
        }
        i := i + 1;
      }
      r := None;
    }

    /** `find_by_uuid`: the first rescue, in insertion order, with that case id. */
    method FindByUuid(guid: Uuid) returns (r: Option<BoardRescue>)
      ensures r.None? <==> forall i :: 0 <= i < |entries| ==> entries[i].1.caseId != Some(guid)
      ensures r.Some? ==> (exists i :: 0 <= i < |entries| && entries[i].1 == r.value &&
                            r.value.caseId == Some(guid) && forall k :: 0 <= k < i ==> entries[k].1.caseId != Some(guid))
    {
      var i := 0;
      while i < |entries|
        invariant 0 <= i <= |entries|
        invariant forall k :: 0 <= k < i ==> entries[k].1.caseId != Some(guid)
      {
        if entries[i].1.caseId == Some(guid) {
          return Some(entries[i].1);
        }
        i := i + 1;
      }
      r := None;
    }

    /** `append`: a rescue without a (non-zero) index is ignored; one whose
        index is free, or with `overwrite`, is stored there; otherwise
        IndexNotFreeError and no change. */
    method Append(rescue: BoardRescue, overwrite: bool) returns (r: Outcome<BoardError>)
      requires Valid()
      modifies this
      ensures Valid()
      ensures !HasIndex(rescue) ==> r == Pass && entries == old(entries)
      ensures HasIndex(rescue) && (overwrite || rescue.boardIndex.value !in old(Rescues())) ==>
        r == Pass && entries == Assign(old(entries), rescue.boardIndex.value, rescue) &&
        Rescues() == old(Rescues())[rescue.boardIndex.value := rescue]
      ensures HasIndex(rescue) && !overwrite && rescue.boardIndex.value in old(Rescues()) ==>
        r == Fail(IndexNotFreeError(IndexNotFreeMessage(rescue.boardIndex.value))) && entries == old(entries)
    {
      if HasIndex(rescue) {
        var index := rescue.boardIndex.value;
        if overwrite || index !in Rescues() {
          AssignSpec(entries, index, rescue);
          entries := Assign(entries, index, rescue);
        } else {
          return Fail(IndexNotFreeError(IndexNotFreeMessage(index)));
        }
      }
      r := Pass;
    }

    /** `modify` is not implemented: it reports no change. */
    method Modify(rescue: BoardRescue) returns (r: bool)
      ensures !r
    {
      r := false;
    }

    /** `remove`: pops the rescue's index; KeyError when nothing is there. */
    method Remove(rescue: BoardRescue) returns (r: Outcome<BoardError>)
      requires Valid()
      modifies this
      ensures Valid()
      ensures rescue.boardIndex.Some? && rescue.boardIndex.value in old(Rescues()) ==>
        r == Pass && entries == Without(old(entries), rescue.boardIndex.value) &&
        Rescues() == old(Rescues()) - {rescue.boardIndex.value}
      ensures !(rescue.boardIndex.Some? && rescue.boardIndex.value in old(Rescues())) ==>
        r == Fail(PopKeyError(rescue.boardIndex)) && entries == old(entries)
    {
      if rescue.boardIndex.None? || rescue.boardIndex.value !in Rescues() {
        return Fail(PopKeyError(rescue.boardIndex));
      }
      WithoutSpec(entries, rescue.boardIndex.value);
      entries := Without(entries, rescue.boardIndex.value);
      r := Pass;
    }

    /** `clear_board`. */
    method ClearBoard()
      modifies this
      ensures Valid() && entries == [] && Rescues() == map[]
    {
      entries := [];
    }
  }

  /** Appending at a free index and then removing the same rescue leaves the
      board as it was. */
  lemma AppendThenRemove(es: Entries, rescue: BoardRescue)
    requires DistinctKeys(es) && HasIndex(rescue) && rescue.boardIndex.value !in AsMap(es)
    ensures Without(Assign(es, rescue.boardIndex.value, rescue), rescue.boardIndex.value) == es
  {
    var k := rescue.boardIndex.value;
    AssignSpec(es, k, rescue);
    WithoutAbsent(es, k);
    WithoutAppend(es, k, rescue);
  }

  lemma {:induction false} WithoutAbsent(es: Entries, k: int)
    requires DistinctKeys(es) && k !in AsMap(es)
    ensures Without(es, k) == es
    decreases |es|
  {
    if es != [] {
      assert es[0].0 != k;
      HeadNotInTail(es);
      WithoutAbsent(es[1..], k);
      assert [es[0]] + es[1..] == es;
    }
  }

  lemma {:induction false} WithoutAppend(es: Entries, k: int, v: BoardRescue)
    ensures Without(es + [(k, v)], k) == Without(es, k)
    decreases |es|
  {
    if es == [] {
      assert [(k, v)][1..] == [];
    } else {
      assert (es + [(k, v)])[1..] == es[1..] + [(k, v)];
      WithoutAppend(es[1..], k, v);
    }
  }

  /** Two rescues that both lack a case id are taken for the same case. */
  lemma NoCaseIdsMatch(stored: BoardRescue, other: BoardRescue)
    requires stored.caseId.None? && other.caseId.None?
    ensures SameCase(stored, other)
  {
  }
}
