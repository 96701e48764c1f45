/** The in-memory issue store that `tests/integration/tasks.test.ts` and
    `tests/integration/users.test.ts` put in place of the issue helpers: an array of records and
    an id counter, changed in place. It is the only place where create/read/update/delete
    semantics are spelled out. */
module RecordStore {
  import opened Wrappers
  import opened Values

  /** A label list as the array value it is stored as. */
  function LabelsValue(labels: seq<string>): (v: Value)
    ensures v.Arr? && |v.elems| == |labels|
    ensures forall i :: 0 <= i < |labels| ==> v.elems[i] == Str(labels[i])
  {
    Arr(seq(|labels|, i requires 0 <= i < |labels| => Str(labels[i])))
  }

  /** `{ id: newId, ...data, labels }`: the data's own `id` wins over the counter, the labels
      win over the data's own `labels`. */
  function NewRecord(newId: int, data: Record, labels: seq<string>): (r: Record)
    ensures r.Keys == data.Keys + {"id", "labels"}
    ensures r["id"] == if "id" in data then data["id"] else Num(newId)
    ensures r["labels"] == LabelsValue(labels)
    ensures forall k :: k in data && k != "labels" ==> r[k] == data[k]
  {
    (map["id" := Num(newId)] + data)["labels" := LabelsValue(labels)]
  }

  /** The record `t` that `t.id === id` picks out. */
  predicate HasId(r: Record, id: int): (b: bool)
    ensures b <==> "id" in r && r["id"] == Num(id)
  {
    Get(r, "id") == Num(id)
  }

  /** `records.findIndex(t => t.id === id)`, with `None` for `-1`. */
  function FindIndex(records: seq<Record>, id: int): (r: Option<nat>)
    ensures r.None? <==> forall j :: 0 <= j < |records| ==> !HasId(records[j], id)
    ensures r.Some? ==> r.value < |records| && HasId(records[r.value], id)
    ensures r.Some? ==> forall j :: 0 <= j < r.value ==> !HasId(records[j], id)
  {
    if |records| == 0 then None
    else if HasId(records[0], id) then Some(0)
    else
      var rest := FindIndex(records[1..], id);
      if rest.Some? then Some(rest.value + 1) else None
  }

  /** `records.find(t => t.id === id)`, with `None` for a miss. */
  function Find(records: seq<Record>, id: int): (r: Option<Record>)
    ensures r.None? <==> FindIndex(records, id).None?
    ensures r.Some? ==> r.value == records[FindIndex(records, id).value]
  {
    match FindIndex(records, id)
    case None => None
    case Some(i) => Some(records[i])
  }

  /** `records.splice(findIndex(...), 1)` when there is a match; no change otherwise. */
  function Removed(records: seq<Record>, id: int): (r: seq<Record>)
    ensures FindIndex(records, id).None? ==> r == records
    ensures FindIndex(records, id).Some? ==> |r| == |records| - 1
    ensures FindIndex(records, id).Some? ==> var i := FindIndex(records, id).value;
      forall j :: 0 <= j < |r| ==> r[j] == if j < i then records[j] else records[j + 1]
  {
    match FindIndex(records, id)
    case None => records
    case Some(i) => records[..i] + records[i + 1..]
  }

  /** The ids the counter hands out: every record numbered below the counter, in increasing
      order, so no two alike. */
  predicate Numbered(records: seq<Record>, counter: int)
  {
    && (forall i :: 0 <= i < |records| ==> Get(records[i], "id").Num? && Get(records[i], "id").n < counter)
    && (forall i, j :: 0 <= i < j < |records| ==> Get(records[i], "id").n < Get(records[j], "id").n)
  }

  class MockIssueStore {
    var records: seq<Record>
    var idCounter: int

    /** The state after `beforeEach`: no records, counter at 1. */
    constructor()
      ensures records == [] && idCounter == 1
    {
      records := [];
      idCounter := 1;
    }

    /** `tasks = []; idCounter = 1`. */
    method Reset()
      modifies this
      ensures records == [] && idCounter == 1
    {
      records := [];
      idCounter := 1;
    }

    /** `createIssue(env, title, data, labels)`: number the record with the counter, append it
        and return it. The title is ignored. */
    method CreateIssue(title: Value, data: Record, labels: seq<string>) returns (created: Record)
      modifies this
      ensures created == NewRecord(old(idCounter), data, labels)
      ensures records == old(records) + [created]
      ensures idCounter == old(idCounter) + 1
    {
      var newId := idCounter;
      idCounter := idCounter + 1;
      created := NewRecord(newId, data, labels);
      records := records + [created];
    }

    /** `getIssue(env, id)`: the first record with that id, or `null`. */
    method GetIssue(id: int) returns (found: Option<Record>)
      ensures found.None? <==> forall j :: 0 <= j < |records| ==> !HasId(records[j], id)
      ensures found.Some? ==> found.value in records && HasId(found.value, id)
      ensures found == Find(records, id)
    {
      found := Find(records, id);
    }

    /** `updateIssue(env, id, data)`: merge the data over the matching record (the data wins) and
        report success; report failure and change nothing when there is none. */
    method UpdateIssue(id: int, data: Record) returns (success: bool)
      modifies this
      ensures success <==> FindIndex(old(records), id).Some?
      ensures success ==> records == old(records)[FindIndex(old(records), id).value := old(records)[FindIndex(old(records), id).value] + data]
      ensures !success ==> records == old(records)
      ensures idCounter == old(idCounter)
    {
      var index := FindIndex(records, id);
      if index.Some? {
        records := records[index.value := records[index.value] + data];
        success := true;
      } else {
        success := false;
      }
    }

    /** `closeIssue(env, id)`: remove the matching record, if any; always reports success. */
    method CloseIssue(id: int) returns (success: bool)
      modifies this
      ensures success
      ensures records == Removed(old(records), id)
      ensures idCounter == old(idCounter)
    {
      records := Removed(records, id);
      success := true;
    }

    /** `listIssues(env, labels)`: every record in insertion order, whatever the labels. */
    method ListIssues(labels: seq<string>) returns (all: seq<Record>)
      ensures all == records
    {
      all := records;
    }
  }

  /** `FindIndex` stops at the first match. */
  lemma {:induction false} FindIndexAt(records: seq<Record>, id: int, i: nat)
    requires i < |records| && HasId(records[i], id)
    requires forall j :: 0 <= j < i ==> !HasId(records[j], id)
    ensures FindIndex(records, id) == Some(i)
  {
    if i > 0 {
      FindIndexAt(records[1..], id, i - 1);
    }
  }

  /** A create keeps the numbering when the data brings no `id` of its own. */
  lemma CreateKeepsNumbering(records: seq<Record>, counter: int, data: Record, labels: seq<string>)
    requires Numbered(records, counter) && "id" !in data
    ensures Numbered(records + [NewRecord(counter, data, labels)], counter + 1)
  {
    var s := records + [NewRecord(counter, data, labels)];
    forall i, j | 0 <= i < j < |s| ensures Get(s[i], "id").n < Get(s[j], "id").n {
      if j < |records| { assert s[i] == records[i] && s[j] == records[j]; }
    }
  }

  /** Create, then read: the new record is found under the counter's id and holds the data. */
  lemma CreateThenGet(records: seq<Record>, counter: int, data: Record, labels: seq<string>)
    requires Numbered(records, counter) && "id" !in data
    ensures Find(records + [NewRecord(counter, data, labels)], counter) == Some(NewRecord(counter, data, labels))
  {
    var s := records + [NewRecord(counter, data, labels)];
    forall j | 0 <= j < |records| ensures !HasId(s[j], counter) {
      assert s[j] == records[j];
    }
    FindIndexAt(s, counter, |records|);
  }

  /** Update, then read: when the data keeps the id, the record read back is the merge. */
  lemma UpdateThenGet(records: seq<Record>, id: int, data: Record)
    requires FindIndex(records, id).Some?
    requires "id" !in data || data["id"] == Num(id)
    ensures var i := FindIndex(records, id).value;
      Find(records[i := records[i] + data], id) == Some(records[i] + data)
  {
    var i := FindIndex(records, id).value;
    var s := records[i := records[i] + data];
    FindIndexAt(s, id, i);
  }

  /** Close, then read: with distinct ids nothing is found any more, and the records with other
      ids are still there in their order. */
  lemma CloseThenGet(records: seq<Record>, counter: int, id: int)
    requires Numbered(records, counter)
    ensures Find(Removed(records, id), id).None?
    ensures Numbered(Removed(records, id), counter)
  {
    var r := Removed(records, id);
    if FindIndex(records, id).Some? {
      var i := FindIndex(records, id).value;
      forall j | 0 <= j < |r| ensures !HasId(r[j], id) {
        if j >= i {
          assert r[j] == records[j + 1];
          assert Get(records[i], "id").n < Get(records[j + 1], "id").n;
        }
      }
      forall a, b | 0 <= a < b < |r| ensures Get(r[a], "id").n < Get(r[b], "id").n {
        var a' := if a < i then a else a + 1;
        var b' := if b < i then b else b + 1;
        assert r[a] == records[a'] && r[b] == records[b'];
      }
    }
  }

  /** tests/integration/tasks.test.ts, "should get a single task by its ID": after a reset, the
      created record is found under the id it was given and shows the data. */
  method CreateThenReadScenario(data: Record) returns (created: Record, found: Option<Record>)
    requires "id" !in data
    ensures Get(created, "id") == Num(1)
    ensures found == Some(created)
    ensures forall k :: k in data && k != "labels" ==> Get(found.value, k) == data[k]
  {
    var store := new MockIssueStore();
    created := store.CreateIssue(Get(data, "name"), data, ["task"]);
    CreateThenGet([], 1, data, ["task"]);
    found := store.GetIssue(1);
  }

  /** "should update a task successfully": the fields written by the update are read back, the
      others are kept. */
  method UpdateThenReadScenario(data: Record, update: Record) returns (success: bool, found: Option<Record>)
    requires "id" !in data && "id" !in update
    ensures success
    ensures found.Some?
    ensures forall k :: k in update ==> Get(found.value, k) == update[k]
    ensures forall k :: k in data && k !in update && k != "labels" ==> Get(found.value, k) == data[k]
  {
    var store := new MockIssueStore();
    var created := store.CreateIssue(Get(data, "name"), data, ["task"]);
    assert FindIndex(store.records, 1) == Some(0);
    success := store.UpdateIssue(1, update);
    UpdateThenGet([created], 1, update);
    found := store.GetIssue(1);
  }

  /** "should delete a task successfully": the close succeeds and the record is gone. */
  method DeleteThenReadScenario(data: Record) returns (success: bool, found: Option<Record>)
    requires "id" !in data
    ensures success
    ensures found.None?
  {
    var store := new MockIssueStore();
    var created := store.CreateIssue(Get(data, "name"), data, ["task"]);
    FindIndexAt([created], 1, 0);
    success := store.CloseIssue(1);
    found := store.GetIssue(1);
  }

  /** tests/integration/users.test.ts, "should get a list with one user": after one create the
      list is exactly that record. */
  method ListAfterOneCreateScenario(data: Record) returns (all: seq<Record>)
    ensures |all| == 1
    ensures all[0] == NewRecord(1, data, ["user"])
  {
    var store := new MockIssueStore();
    var created := store.CreateIssue(Get(data, "username"), data, ["user"]);
    all := store.ListIssues(["user"]);
  }
}
