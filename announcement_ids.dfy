/**
 * How the announcements generator of `app/generator.py` numbers a new
 * announcement: one more than the largest stored id, or 0.
 */
module AnnouncementIds {
  import opened Wrappers
  import opened Json

  /** `announcement["id"]`, which the source compares with and adds to an int. */
  function IdOf(announcement: Json): Result<int, Error>
  {
    var id :- GetItem(announcement, "id");
    match AsInt(id)
    case Some(n) => Ok(n)
    case None => Err(TypeError)
  }

  /**
   * The id the loop of lines 189-192 arrives at: it starts at 0 and moves
   * past every stored id at least as large; the first stored announcement
   * without a usable id raises.
   */
  function NewId(announcements: seq<Json>): Result<int, Error>
    decreases |announcements|
  {
    if announcements == [] then Ok(0)
    else
      var prev :- NewId(announcements[..|announcements| - 1]);
      var id :- IdOf(announcements[|announcements| - 1]);
      Ok(if id >= prev then id + 1 else prev)
  }

  /**
   * The new id is the least non-negative number above every stored id: it
   * is 0 or one more than a stored id.
   */
  lemma {:induction false} NewIdFresh(announcements: seq<Json>)
    requires NewId(announcements).Ok?
    ensures NewId(announcements).value >= 0
    ensures forall i :: 0 <= i < |announcements| ==>
      IdOf(announcements[i]).Ok? && IdOf(announcements[i]).value < NewId(announcements).value
    ensures NewId(announcements).value == 0 ||
            exists i :: 0 <= i < |announcements| && IdOf(announcements[i]) == Ok(NewId(announcements).value - 1)
    decreases |announcements|
  {
    if announcements != [] {
      var n := |announcements| - 1;
      var init := announcements[..n];
      assert NewId(init).Ok? && IdOf(announcements[n]).Ok?;
      NewIdFresh(init);
      var prev, id := NewId(init).value, IdOf(announcements[n]).value;
      var v := NewId(announcements).value;
      assert v == if id >= prev then id + 1 else prev;
      forall i | 0 <= i < |announcements|
        ensures IdOf(announcements[i]).Ok? && IdOf(announcements[i]).value < v
      {
        if i < n {
          assert init[i] == announcements[i];
        }
      }
      if id < prev && prev > 0 {
        var k :| 0 <= k < |init| && IdOf(init[k]) == Ok(prev - 1);
        assert init[k] == announcements[k];
      }
    }
  }

  /** With every stored id usable, a new id is found. */
  lemma {:induction false} NewIdOk(announcements: seq<Json>)
    requires forall j :: 0 <= j < |announcements| ==> IdOf(announcements[j]).Ok?
    ensures NewId(announcements).Ok?
    decreases |announcements|
  {
    if announcements != [] {
      var init := announcements[..|announcements| - 1];
      assert forall j :: 0 <= j < |init| ==> init[j] == announcements[j];
      NewIdOk(init);
    }
  }

  /** The first stored announcement without a usable id decides the exception. */
  lemma {:induction false} NewIdFails(announcements: seq<Json>, i: nat)
    requires i < |announcements| && IdOf(announcements[i]).Err?
    requires forall j :: 0 <= j < i ==> IdOf(announcements[j]).Ok?
    ensures NewId(announcements) == Err(IdOf(announcements[i]).error)
    decreases |announcements|
  {
    var init := announcements[..|announcements| - 1];
    assert forall j :: 0 <= j < |init| ==> init[j] == announcements[j];
    if i == |announcements| - 1 {
      NewIdOk(init);
    } else {
      NewIdFails(init, i);
    }
  }

  /** Lines 189-192: the loop that finds the new id. */
  method AllocateId(announcements: seq<Json>) returns (r: Result<int, Error>)
    ensures r == NewId(announcements)
  {
    var newId := 0;
    for i := 0 to |announcements|
      invariant forall j :: 0 <= j < i ==> IdOf(announcements[j]).Ok?
      invariant NewId(announcements[..i]) == Ok(newId)
    {
      var id := IdOf(announcements[i]);
      if id.Err? {
        NewIdFails(announcements, i);
        return Err(id.error);
      }
      assert announcements[..i + 1][..i] == announcements[..i];
      if id.value >= newId {
        newId := id.value + 1;
      }
    }
    assert announcements[..|announcements|] == announcements;
    return Ok(newId);
  }

  /** Line 194: the numbered announcement carries the new id. */
  lemma NumberedId(fields: seq<Field>, id: int)
    ensures IdOf(Obj(Put(fields, "id", Num(id)))) == Ok(id)
  {
    assert GetItem(Obj(Put(fields, "id", Num(id))), "id") == Ok(Num(id));
  }
}
