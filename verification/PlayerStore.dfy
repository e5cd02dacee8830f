/** Saving a player's items and tasks as rows and rebuilding them from rows. */
module PlayerStore {
  import opened TradeExchange

  const ACTIVE_MISSION_COUNT := 6

  // The sizes of the three item arrays depend on the client version.
  datatype Layout = Layout(equip: nat, inven: nat, bank: nat)

  const EMPTY := Item(0, 0, 0, 0)

  // A row of the Inventory table.
  datatype Row = Row(slot: int, item: Item)

  // ---- rows of items

  // The rows for the items from `i` on, their slots shifted by `offset`; empty slots have none.
  function RowsFrom(items: seq<Item>, offset: nat, i: nat): seq<Row>
    requires i <= |items|
    decreases |items| - i
  {
    if i == |items| then []
    else (if items[i].iID == 0 then [] else [Row(offset + i, items[i])]) + RowsFrom(items, offset, i + 1)
  }

  // The row set of a player: equipment, inventory and bank, one after the other.
  function ItemRows(equip: seq<Item>, inven: seq<Item>, bank: seq<Item>): seq<Row> {
    RowsFrom(equip, 0, 0) + RowsFrom(inven, |equip|, 0) + RowsFrom(bank, |equip| + |inven|, 0)
  }

  lemma {:induction false} RowsAfter(a: seq<Item>, b: seq<Item>, offset: nat, i: nat)
    requires i <= |b|
    ensures RowsFrom(b, offset + |a|, i) == RowsFrom(a + b, offset, |a| + i)
    decreases |b| - i
  {
    if i < |b| {
      RowsAfter(a, b, offset, i + 1);
      assert (a + b)[|a| + i] == b[i];
    }
  }

  lemma {:induction false} RowsBefore(a: seq<Item>, b: seq<Item>, offset: nat, i: nat)
    requires i <= |a|
    ensures RowsFrom(a + b, offset, i) == RowsFrom(a, offset, i) + RowsFrom(b, offset + |a|, 0)
    decreases |a| - i
  {
    hide RowsFrom;
    if i == |a| {
      RowsAfter(a, b, offset, 0);
      RowsEnd(a, offset);
    } else {
      RowsBefore(a, b, offset, i + 1);
      assert (a + b)[i] == a[i];
      RowsOne(a + b, offset, i);
      RowsOne(a, offset, i);
      var one, rest := if a[i].iID == 0 then [] else [Row(offset + i, a[i])], RowsFrom(a, offset, i + 1);
      assert one + (rest + RowsFrom(b, offset + |a|, 0)) == (one + rest) + RowsFrom(b, offset + |a|, 0);
    }
  }

  lemma RowsEnd(items: seq<Item>, offset: nat)
    ensures RowsFrom(items, offset, |items|) == []
  {
  }

  lemma RowsOne(items: seq<Item>, offset: nat, i: nat)
    requires i < |items|
    ensures RowsFrom(items, offset, i) ==
              (if items[i].iID == 0 then [] else [Row(offset + i, items[i])]) + RowsFrom(items, offset, i + 1)
  {
  }

  /** The three ranges of slots follow one another, so the rows are those of one long array. */
  lemma OneArray(equip: seq<Item>, inven: seq<Item>, bank: seq<Item>)
    ensures ItemRows(equip, inven, bank) == RowsFrom(equip + inven + bank, 0, 0)
  {
    RowsBefore(equip + inven, bank, 0, 0);
    RowsBefore(equip, inven, 0, 0);
  }

  // A row is saved exactly for each slot that is not empty.
  lemma {:induction false} RowsAre(items: seq<Item>, offset: nat, i: nat, r: Row)
    requires i <= |items|
    ensures r in RowsFrom(items, offset, i) <==>
              offset + i <= r.slot < offset + |items| && r.item == items[r.slot - offset] && r.item.iID != 0
    decreases |items| - i
  {
    if i < |items| {
      RowsAre(items, offset, i + 1, r);
    }
  }

  // ---- loading items

  // The row goes to its slot; rows for other slots are left out.
  function Put(items: seq<Item>, r: Row): (s: seq<Item>)
    ensures |s| == |items|
  {
    if 0 <= r.slot < |items| then items[r.slot := r.item] else items
  }

  function Loaded(items: seq<Item>, rows: seq<Row>): (s: seq<Item>)
    ensures |s| == |items|
  {
    if |rows| == 0 then items else Put(Loaded(items, rows[..|rows| - 1]), rows[|rows| - 1])
  }

  predicate DistinctSlots(rows: seq<Row>) {
    forall i, j | 0 <= i < j < |rows| :: rows[i].slot != rows[j].slot
  }

  lemma {:induction false} LoadedAt(items: seq<Item>, rows: seq<Row>, s: nat)
    requires s < |items|
    ensures (forall r | r in rows :: r.slot != s) ==> Loaded(items, rows)[s] == items[s]
    ensures DistinctSlots(rows) ==> forall r | r in rows && r.slot == s :: Loaded(items, rows)[s] == r.item
  {
    if |rows| > 0 {
      var rest, last := rows[..|rows| - 1], rows[|rows| - 1];
      LoadedAt(items, rest, s);
      assert rows == rest + [last];
      if DistinctSlots(rows) {
        forall r | r in rows && r.slot == s
          ensures Loaded(items, rows)[s] == r.item
        {
          if r in rest {
            var i :| 0 <= i < |rest| && rest[i] == r;
            assert rows[i] == r;
          }
        }
      }
    }
  }

  // How many rows come before the first one for this slot.
  function Before(rows: seq<Row>, slot: int): (n: nat)
    ensures n <= |rows|
  {
    if |rows| == 0 || rows[0].slot == slot then 0 else 1 + Before(rows[1..], slot)
  }

  lemma {:induction false} BeforeIs(rows: seq<Row>, slot: int, i: nat)
    requires i <= |rows| && (forall j | 0 <= j < i :: rows[j].slot != slot) && (i == |rows| || rows[i].slot == slot)
    ensures Before(rows, slot) == i
  {
    if i > 0 {
      BeforeIs(rows[1..], slot, i - 1);
    }
  }

  function Normal(items: seq<Item>): (r: seq<Item>)
    ensures |r| == |items|
  {
    seq(|items|, i requires 0 <= i < |items| => if items[i].iID == 0 then EMPTY else items[i])
  }

  function Zeroed(n: nat): (r: seq<Item>)
    ensures |r| == n
  {
    seq(n, _ => EMPTY)
  }

  /** Whatever the order in which the saved rows come back, loading them into an empty player gives
      every slot what it held, with empty slots cleared. */
  lemma {:induction false} ItemsRoundTrip(items: seq<Item>, rows: seq<Row>)
    requires DistinctSlots(rows) && forall r :: r in rows <==> r in RowsFrom(items, 0, 0)
    ensures Loaded(Zeroed(|items|), rows) == Normal(items)
  {
    forall s | 0 <= s < |items|
      ensures Loaded(Zeroed(|items|), rows)[s] == Normal(items)[s]
    {
      LoadedAt(Zeroed(|items|), rows, s);
      RowsAre(items, 0, 0, Row(s, items[s]));
      forall r | r in rows && r.slot == s
        ensures r == Row(s, items[s]) && items[s].iID != 0
      {
        RowsAre(items, 0, 0, r);
      }
    }
  }

  lemma {:induction false} SavedSlotsDistinct(items: seq<Item>, i: nat)
    requires i <= |items|
    ensures DistinctSlots(RowsFrom(items, 0, i))
    ensures forall r | r in RowsFrom(items, 0, i) :: i <= r.slot < |items|
    decreases |items| - i
  {
    if i < |items| {
      SavedSlotsDistinct(items, i + 1);
      var rest := RowsFrom(items, 0, i + 1);
      var rows := RowsFrom(items, 0, i);
      FirstSlot(Row(i, items[i]), rest);
      assert rows == rest || rows == [Row(i, items[i])] + rest;
    }
  }

  lemma FirstSlot(r: Row, rest: seq<Row>)
    requires DistinctSlots(rest) && forall x | x in rest :: x.slot != r.slot
    ensures DistinctSlots([r] + rest)
  {
  }

  /** Saving what was loaded gives the same rows again. */
  lemma {:induction false} SavedAgain(items: seq<Item>, i: nat)
    requires i <= |items|
    ensures RowsFrom(Normal(items), 0, i) == RowsFrom(items, 0, i)
    decreases |items| - i
  {
    if i < |items| {
      SavedAgain(items, i + 1);
    }
  }

  // ---- quest items: no type or time limit is saved, and the type is set to 8

  function AsQuestItem(item: Item): Item {
    if item.iID == 0 then EMPTY else Item(8, item.iID, item.iOpt, 0)
  }

  function QuestLoaded(items: seq<Item>): (r: seq<Item>)
    ensures |r| == |items|
  {
    seq(|items|, i requires 0 <= i < |items| => AsQuestItem(items[i]))
  }

  function QuestRow(r: Row): Row {
    r.(item := Item(8, r.item.iID, r.item.iOpt, 0))
  }

  function QuestRows(rows: seq<Row>): (q: seq<Row>)
    ensures |q| == |rows| && forall i | 0 <= i < |q| :: q[i] == QuestRow(rows[i])
  {
    seq(|rows|, i requires 0 <= i < |rows| => QuestRow(rows[i]))
  }

  lemma QuestRowIn(rows: seq<Row>, r: Row)
    requires r in rows
    ensures QuestRow(r) in QuestRows(rows)
  {
  }

  lemma QuestRowOf(rows: seq<Row>, q: Row) returns (r: Row)
    requires q in QuestRows(rows)
    ensures r in rows && q == QuestRow(r)
  {
    var i :| 0 <= i < |rows| && QuestRows(rows)[i] == q;
    r := rows[i];
  }

  lemma QuestRowAt(items: seq<Item>, s: nat)
    requires s < |items| && items[s].iID != 0
    ensures QuestRow(Row(s, items[s])) in QuestRows(RowsFrom(items, 0, 0))
  {
    hide RowsFrom, QuestRows;
    RowsAre(items, 0, 0, Row(s, items[s]));
    QuestRowIn(RowsFrom(items, 0, 0), Row(s, items[s]));
  }

  lemma QuestRowBack(items: seq<Item>, q: Row)
    requires q in QuestRows(RowsFrom(items, 0, 0))
    ensures 0 <= q.slot < |items| && q == QuestRow(Row(q.slot, items[q.slot])) && items[q.slot].iID != 0
  {
    hide RowsFrom, QuestRows;
    var r := QuestRowOf(RowsFrom(items, 0, 0), q);
    RowsAre(items, 0, 0, r);
  }

  /** Quest items come back with type 8 and without a time limit ... */
  lemma QuestRoundTrip(items: seq<Item>)
    ensures Loaded(Zeroed(|items|), QuestRows(RowsFrom(items, 0, 0))) == QuestLoaded(items)
  {
    var rows := QuestRows(RowsFrom(items, 0, 0));
    SavedSlotsDistinct(items, 0);
    assert DistinctSlots(rows);
    forall s | 0 <= s < |items|
      ensures Loaded(Zeroed(|items|), rows)[s] == QuestLoaded(items)[s]
    {
      if items[s].iID != 0 {
        QuestRowAt(items, s);
      } else {
        forall q | q in rows
          ensures q.slot != s
        {
          QuestRowBack(items, q);
        }
      }
      LoadedAt(Zeroed(|items|), rows, s);
    }
  }

  /** ... so they survive exactly when they were like that. */
  lemma QuestItemsSurvive(items: seq<Item>)
    ensures QuestLoaded(items) == Normal(items) <==>
              forall i | 0 <= i < |items| && items[i].iID != 0 :: items[i].iType == 8 && items[i].iTimeLimit == 0
  {
    forall i | 0 <= i < |items|
      ensures QuestLoaded(items)[i] == Normal(items)[i] <==>
                (items[i].iID != 0 ==> items[i].iType == 8 && items[i].iTimeLimit == 0)
    {
    }
  }

  // ---- tasks

  datatype Task = Task(id: int, count1: int, count2: int, count3: int)

  const NO_TASK := Task(0, 0, 0, 0)

  // The active tasks, in order.
  function TaskRows(tasks: seq<Task>): (rows: seq<Task>)
    ensures |rows| <= |tasks| && forall t | t in rows :: t.id != 0 && t in tasks
  {
    if |tasks| == 0 then []
    else (if tasks[0].id == 0 then [] else [tasks[0]]) + TaskRows(tasks[1..])
  }

  // These rows are the tasks at these places: all the active ones, in order.
  ghost predicate Picked(tasks: seq<Task>, rows: seq<Task>, places: seq<nat>) {
    && |places| == |rows| && (forall j | 0 <= j < |rows| :: places[j] < |tasks| && rows[j] == tasks[places[j]])
    && (forall j, k | 0 <= j < k < |places| :: places[j] < places[k])
    && forall i | 0 <= i < |tasks| :: i in places <==> tasks[i].id != 0
  }

  function OneUp(places: seq<nat>): (r: seq<nat>)
    ensures |r| == |places| && forall j | 0 <= j < |r| :: r[j] == places[j] + 1
  {
    seq(|places|, j requires 0 <= j < |places| => places[j] + 1)
  }

  /** The rows are the active tasks and nothing else, each once and in the order of the tasks. */
  lemma {:induction false} TaskRowsAre(tasks: seq<Task>)
    ensures exists places :: Picked(tasks, TaskRows(tasks), places)
  {
    if |tasks| == 0 {
      assert Picked(tasks, TaskRows(tasks), []);
    } else {
      var t, rest := tasks[0], tasks[1..];
      TaskRowsAre(rest);
      assert tasks == [t] + rest;
      PickedOn(t, rest);
    }
  }

  lemma PickedOn(t: Task, rest: seq<Task>)
    requires exists places :: Picked(rest, TaskRows(rest), places)
    ensures exists places :: Picked([t] + rest, TaskRows([t] + rest), places)
  {
    hide Picked, OneUp, TaskRows;
    var places :| Picked(rest, TaskRows(rest), places);
    TaskRowsFirst(t, rest);
    if t.id == 0 {
      PickedLater(t, rest, TaskRows(rest), places);
    } else {
      PickedMore(t, rest, TaskRows(rest), places);
    }
  }

  lemma TaskRowsFirst(t: Task, rest: seq<Task>)
    ensures TaskRows([t] + rest) == if t.id == 0 then TaskRows(rest) else [t] + TaskRows(rest)
  {
    assert ([t] + rest)[1..] == rest;
  }

  lemma PickedLater(t: Task, rest: seq<Task>, rows: seq<Task>, places: seq<nat>)
    requires Picked(rest, rows, places)
    ensures t.id == 0 ==> Picked([t] + rest, rows, OneUp(places))
    ensures forall i | 0 < i <= |rest| :: i in OneUp(places) <==> ([t] + rest)[i].id != 0
    ensures 0 !in OneUp(places)
  {
    forall i | 0 < i <= |rest|
      ensures i in OneUp(places) <==> ([t] + rest)[i].id != 0
    {
      assert ([t] + rest)[i] == rest[i - 1];
      if i - 1 in places {
        var j :| 0 <= j < |places| && places[j] == i - 1;
        assert OneUp(places)[j] == i;
      }
    }
  }

  lemma PickedMore(t: Task, rest: seq<Task>, rows: seq<Task>, places: seq<nat>)
    requires Picked(rest, rows, places) && t.id != 0
    ensures Picked([t] + rest, [t] + rows, [0] + OneUp(places))
  {
    PickedLater(t, rest, rows, places);
    PickedRows(t, rest, rows, places);
    Increasing(places);
    hide OneUp;
    var all := [0] + OneUp(places);
    forall i | 0 <= i <= |rest|
      ensures i in all <==> ([t] + rest)[i].id != 0
    {
      assert i in all <==> i == 0 || i in OneUp(places);
    }
  }

  lemma Increasing(places: seq<nat>)
    requires forall j, k | 0 <= j < k < |places| :: places[j] < places[k]
    ensures var all := [0] + OneUp(places); forall j, k | 0 <= j < k < |all| :: all[j] < all[k]
  {
  }

  lemma PickedRows(t: Task, rest: seq<Task>, rows: seq<Task>, places: seq<nat>)
    requires |places| == |rows| && forall j | 0 <= j < |rows| :: places[j] < |rest| && rows[j] == rest[places[j]]
    ensures forall j | 0 <= j <= |rows| ::
              ([0] + OneUp(places))[j] <= |rest| && ([t] + rows)[j] == ([t] + rest)[([0] + OneUp(places))[j]]
  {
    forall j | 0 < j <= |rows|
      ensures ([0] + OneUp(places))[j] <= |rest| && ([t] + rows)[j] == ([t] + rest)[([0] + OneUp(places))[j]]
    {
      assert ([0] + OneUp(places))[j] == places[j - 1] + 1;
    }
  }

  lemma TaskRowsStep(tasks: seq<Task>, i: nat)
    requires i < |tasks|
    ensures TaskRows(tasks[i..]) == (if tasks[i].id == 0 then [] else [tasks[i]]) + TaskRows(tasks[i + 1..])
  {
  }

  predicate Fresh(rows: seq<Task>, i: nat)
    requires i < |rows|
  {
    forall j | 0 <= j < i :: rows[j].id != rows[i].id
  }

  lemma NoRows(tasks: seq<Task>)
    ensures TaskRows(tasks[|tasks|..]) == []
  {
  }

  function IdsOf(rows: seq<Task>, i: nat): set<int>
    requires i <= |rows|
  {
    set j | 0 <= j < i :: rows[j].id
  }

  lemma IdsStep(rows: seq<Task>, i: nat)
    requires i < |rows|
    ensures IdsOf(rows, i + 1) == IdsOf(rows, i) + {rows[i].id}
    ensures rows[i].id in IdsOf(rows, i) <==> !Fresh(rows, i)
  {
  }

  // What an empty player's tasks are after loading: a row that repeats an earlier task leaves a gap.
  function LoadedTasks(rows: seq<Task>): (tasks: seq<Task>)
    ensures |tasks| == ACTIVE_MISSION_COUNT
  {
    seq(ACTIVE_MISSION_COUNT, i requires 0 <= i < ACTIVE_MISSION_COUNT => if i < |rows|
        && Fresh(rows, i) then rows[i] else NO_TASK)
  }

  predicate DistinctTasks(tasks: seq<Task>) {
    forall i, j | 0 <= i < j < |tasks| && tasks[i].id != 0 :: tasks[i].id != tasks[j].id
  }

  lemma {:induction false} RowsDistinct(tasks: seq<Task>)
    ensures DistinctTasks(TaskRows(tasks)) <==> DistinctTasks(tasks)
    ensures forall t | t in tasks && t.id != 0 :: t in TaskRows(tasks)
  {
    if |tasks| > 0 {
      var t, rest := tasks[0], tasks[1..];
      RowsDistinct(rest);
      assert tasks == [t] + rest;
      if t.id != 0 {
        var rows := TaskRows(rest);
        assert TaskRows(tasks) == [t] + rows;
        ConsDistinct(t, rest);
        ConsDistinct(t, rows);
      } else {
        assert TaskRows(tasks) == TaskRows(rest);
        ConsDistinct(t, rest);
      }
    }
  }

  lemma ConsDistinct(t: Task, s: seq<Task>)
    ensures DistinctTasks([t] + s) <==> DistinctTasks(s) && (t.id != 0 ==> forall u | u in s :: u.id != t.id)
  {
    var all := [t] + s;
    assert all[1..] == s;
    if DistinctTasks(all) {
      forall i, j | 0 <= i < j < |s| && s[i].id != 0
        ensures s[i].id != s[j].id
      {
        assert all[i + 1] == s[i] && all[j + 1] == s[j];
      }
      if t.id != 0 {
        forall u | u in s
          ensures u.id != t.id
        {
          var j :| 0 <= j < |s| && s[j] == u;
          assert all[0] == t && all[j + 1] == u;
        }
      }
    }
  }

  lemma {:induction false} RowsOfRows(rows: seq<Task>, n: nat)
    requires forall t | t in rows :: t.id != 0
    ensures TaskRows(rows + seq(n, _ => NO_TASK)) == rows
    decreases |rows| + n
  {
    var padded := rows + seq(n, _ => NO_TASK);
    if |rows| > 0 {
      RowsOfRows(rows[1..], n);
      assert padded[1..] == rows[1..] + seq(n, _ => NO_TASK);
      assert rows == [rows[0]] + rows[1..];
    } else if n > 0 {
      RowsOfRows(rows, n - 1);
      assert padded[1..] == rows + seq((n - 1) as nat, _ => NO_TASK);
    }
  }

  /** Distinct tasks come back in order with the gaps closed. */
  lemma TasksRoundTrip(tasks: seq<Task>)
    requires |tasks| == ACTIVE_MISSION_COUNT && DistinctTasks(tasks)
    ensures var rows := TaskRows(tasks);
            LoadedTasks(rows) == rows + seq(ACTIVE_MISSION_COUNT - |rows|, _ => NO_TASK)
  {
    var rows := TaskRows(tasks);
    RowsDistinct(tasks);
    forall i | 0 <= i < |rows|
      ensures Fresh(rows, i)
    {
      assert rows[i] in rows;
    }
  }

  /** Saving the loaded tasks gives the same rows if and only if no task was saved twice. */
  lemma TasksSavedAgain(tasks: seq<Task>)
    requires |tasks| == ACTIVE_MISSION_COUNT
    ensures TaskRows(LoadedTasks(TaskRows(tasks))) == TaskRows(tasks) <==> DistinctTasks(tasks)
  {
    hide TaskRows, LoadedTasks;
    var rows := TaskRows(tasks);
    if DistinctTasks(tasks) {
      TasksRoundTrip(tasks);
      RowsOfRows(rows, ACTIVE_MISSION_COUNT - |rows|);
    } else {
      RowsDistinct(tasks);
      LoadedDistinct(rows);
      RowsDistinct(LoadedTasks(rows));
    }
  }

  // However it was saved, no task is loaded twice.
  lemma LoadedDistinct(rows: seq<Task>)
    requires |rows| <= ACTIVE_MISSION_COUNT
    ensures DistinctTasks(LoadedTasks(rows))
  {
    var tasks := LoadedTasks(rows);
    forall i, j | 0 <= i < j < |tasks| && tasks[i].id != 0
      ensures tasks[i].id != tasks[j].id
    {
      if tasks[j].id != 0 {
        assert Fresh(rows, j);
      }
    }
  }

  // ---- the player's arrays

  class Player {
    const Equip: array<Item>
    const Inven: array<Item>
    const Bank: array<Item>
    const tasks: array<int>
    const RemainingNPCCount: array<(int, int, int)>

    constructor (l: Layout)
      ensures fresh(Equip) && fresh(Inven) && fresh(Bank) && fresh(tasks) && fresh(RemainingNPCCount) && Apart()
      ensures Equip.Length == l.equip && Inven.Length == l.inven && Bank.Length == l.bank
      ensures Flat() == Zeroed(l.equip + l.inven + l.bank) && Tasks() == LoadedTasks([])
    {
      Equip := new Item[l.equip](_ => EMPTY);
      Inven := new Item[l.inven](_ => EMPTY);
      Bank := new Item[l.bank](_ => EMPTY);
      tasks := new int[ACTIVE_MISSION_COUNT](_ => 0);
      RemainingNPCCount := new (int, int, int)[ACTIVE_MISSION_COUNT](_ => (0, 0, 0));
    }

    predicate Apart() {
      && Equip != Inven && Inven != Bank && Equip != Bank
      && tasks.Length == ACTIVE_MISSION_COUNT && RemainingNPCCount.Length == ACTIVE_MISSION_COUNT
    }

    function Flat(): seq<Item>
      reads Equip, Inven, Bank
    {
      Equip[..] + Inven[..] + Bank[..]
    }

    function Tasks(): seq<Task>
      requires Apart()
      reads tasks, RemainingNPCCount
    {
      seq(ACTIVE_MISSION_COUNT, i requires 0 <= i < ACTIVE_MISSION_COUNT reads tasks, RemainingNPCCount =>
        Task(tasks[i], RemainingNPCCount[i].0, RemainingNPCCount[i].1, RemainingNPCCount[i].2))
    }

    // one of the three loops of _updatePlayer over items
    static method SaveArray(items: array<Item>, offset: nat, before: seq<Row>) returns (rows: seq<Row>)
      ensures rows == before + RowsFrom(items[..], offset, 0)
    {
      rows := before;
      for i := 0 to items.Length
        invariant rows + RowsFrom(items[..], offset, i) == before + RowsFrom(items[..], offset, 0)
      {
        if items[i].iID != 0 {
          ghost var was := rows;
          rows := rows + [Row(offset + i, items[i])];
          assert rows + RowsFrom(items[..], offset,
              i + 1) == was + ([Row(offset + i, items[i])] + RowsFrom(items[..], offset, i + 1));
        }
      }
    }

    method SaveItems() returns (rows: seq<Row>)
      ensures rows == RowsFrom(Flat(), 0, 0)
    {
      rows := SaveArray(Equip, 0, []);
      rows := SaveArray(Inven, Equip.Length, rows);
      rows := SaveArray(Bank, Equip.Length + Inven.Length, rows);
      OneArray(Equip[..], Inven[..], Bank[..]);
      assert [] + RowsFrom(Equip[..], 0, 0) == RowsFrom(Equip[..], 0, 0);
    }

    /** The loop of getPlayer over the Inventory rows.  Its check lets the slot just past the last one
        through, where there is no item to write to; `ok` says that this does not happen. */
    method LoadItems(rows: seq<Row>) returns (ok: bool)
      requires Apart()
      modifies Equip, Inven, Bank
      ensures ok <==> forall r | r in rows :: r.slot != Equip.Length + Inven.Length + Bank.Length
      ensures Flat() == Loaded(old(Flat()), rows[..Before(rows, Equip.Length + Inven.Length + Bank.Length)])
      ensures ok ==> Flat() == Loaded(old(Flat()), rows)
    {
      var total := Equip.Length + Inven.Length + Bank.Length;
      for i := 0 to |rows|
        invariant Flat() == Loaded(old(Flat()), rows[..i])
        invariant forall j | 0 <= j < i :: rows[j].slot != total
      {
        assert rows[..i + 1][..i] == rows[..i];
        ghost var before := Flat();
        var slot := rows[i].slot;
        if slot < 0 || slot > total {
          continue;
        }
        if slot == total {
          BeforeIs(rows, total, i);
          ok := false;
          return;
        }
        if slot < Equip.Length {
          Equip[slot] := rows[i].item;
        } else if slot < Equip.Length + Inven.Length {
          Inven[slot - Equip.Length] := rows[i].item;
        } else {
          Bank[slot - Equip.Length - Inven.Length] := rows[i].item;
        }
        assert Flat() == before[slot := rows[i].item];
      }
      assert rows[..|rows|] == rows;
      BeforeIs(rows, total, |rows|);
      ok := true;
    }

    method SaveTasks() returns (rows: seq<Task>)
      requires Apart()
      ensures rows == TaskRows(Tasks())
    {
      hide TaskRows;
      rows := [];
      ghost var ts := Tasks();
      assert ts[0..] == ts && [] + TaskRows(ts) == TaskRows(ts);
      for i := 0 to ACTIVE_MISSION_COUNT
        invariant rows + TaskRows(ts[i..]) == TaskRows(ts)
      {
        TaskRowsStep(ts, i);
        if tasks[i] == 0 {
          assert [] + TaskRows(ts[i + 1..]) == TaskRows(ts[i + 1..]);
          continue;
        }
        var c := RemainingNPCCount[i];
        ghost var was := rows;
        rows := rows + [Task(tasks[i], c.0, c.1, c.2)];
        assert rows + TaskRows(ts[i + 1..]) == was + ([ts[i]] + TaskRows(ts[i + 1..]));
      }
      NoRows(ts);
      assert rows + [] == rows;
    }

    method SetTask(i: nat, t: Task)
      requires Apart() && i < ACTIVE_MISSION_COUNT
      modifies tasks, RemainingNPCCount
      ensures Tasks() == old(Tasks())[i := t]
    {
      tasks[i] := t.id;
      RemainingNPCCount[i] := (t.count1, t.count2, t.count3);
      forall k | 0 <= k < ACTIVE_MISSION_COUNT
        ensures Tasks()[k] == old(Tasks())[i := t][k]
      {
      }
    }

    /** The loop of getPlayer over the RunningQuests rows, on a player without tasks. */
    method LoadTasks(rows: seq<Task>)
      requires Apart() && Tasks() == LoadedTasks([]) && forall t | t in rows :: t.id != 0
      modifies tasks, RemainingNPCCount
      ensures Tasks() == LoadedTasks(rows)
      ensures forall i | 0 <= i < ACTIVE_MISSION_COUNT :: Tasks()[i] ==
                if i < |rows| && (forall j | 0 <= j < i :: rows[j].id != rows[i].id) then rows[i] else Task(0, 0, 0, 0)
    {
      assert forall k | 0 <= k < ACTIVE_MISSION_COUNT :: Tasks()[k] == NO_TASK;
      var tasksSet: set<int> := {};
      var i := 0;
      while i < |rows| && i < ACTIVE_MISSION_COUNT
        invariant 0 <= i <= |rows| && i <= ACTIVE_MISSION_COUNT
        invariant tasksSet == IdsOf(rows, i)
        invariant forall k | 0 <= k < ACTIVE_MISSION_COUNT ::
                    Tasks()[k] == if k < i && Fresh(rows, k) then rows[k] else NO_TASK
      {
        IdsStep(rows, i);
        var taskID := rows[i].id;
        if taskID !in tasksSet {
          SetTask(i, rows[i]);
          tasksSet := tasksSet + {taskID};
        }
        i := i + 1;
      }
    }
  }

  /** Saving a player and loading the rows into a new one gives the items back slot for slot, and
      tasks that are distinct in order with the gaps closed. */
  method SaveAndLoad(p: Player, l: Layout) returns (q: Player)
    requires p.Apart() && p.Equip.Length == l.equip && p.Inven.Length == l.inven && p.Bank.Length == l.bank
    ensures fresh(q) && q.Apart()
    ensures q.Equip[..] == Normal(p.Equip[..]) && q.Inven[..] == Normal(p.Inven[..]) && q.Bank[..] == Normal(p.Bank[..])
    ensures DistinctTasks(p.Tasks()) ==>
              var rows := TaskRows(p.Tasks());
              q.Tasks() == rows + seq(ACTIVE_MISSION_COUNT - |rows|, _ => NO_TASK)
  {
    hide RowsFrom, Loaded, Normal, Zeroed, TaskRows, LoadedTasks, DistinctTasks;
    var items := p.SaveItems();
    var tasks := p.SaveTasks();
    q := new Player(l);
    SavedSlotsDistinct(p.Flat(), 0);
    ItemsRoundTrip(p.Flat(), items);
    var ok := q.LoadItems(items);
    assert ok;
    q.LoadTasks(tasks);
    assert q.Flat() == Normal(p.Flat());
    Parts(q.Equip[..], q.Inven[..], q.Bank[..], p.Equip[..], p.Inven[..], p.Bank[..]);
    if DistinctTasks(p.Tasks()) {
      TasksRoundTrip(p.Tasks());
    }
  }

  lemma Parts(a: seq<Item>, b: seq<Item>, c: seq<Item>, a': seq<Item>, b': seq<Item>, c': seq<Item>)
    requires |a| == |a'| && |b| == |b'| && |c| == |c'| && a + b + c == Normal(a' + b' + c')
    ensures a == Normal(a') && b == Normal(b') && c == Normal(c')
  {
    hide Normal;
    NormalSum(a', b', c');
    Split(a, b, c, Normal(a'), Normal(b'), Normal(c'));
  }

  lemma NormalSum(a: seq<Item>, b: seq<Item>, c: seq<Item>)
    ensures Normal(a + b + c) == Normal(a) + Normal(b) + Normal(c)
  {
  }

  lemma Split(a: seq<Item>, b: seq<Item>, c: seq<Item>, a': seq<Item>, b': seq<Item>, c': seq<Item>)
    requires |a| == |a'| && |b| == |b'| && |c| == |c'| && a + b + c == a' + b' + c'
    ensures a == a' && b == b' && c == c'
  {
    var s, s' := a + b + c, a' + b' + c';
    assert s[..|a|] == a && s'[..|a|] == a';
    assert s[|a|..|a| + |b|] == b && s'[|a|..|a| + |b|] == b';
    assert s[|a| + |b|..] == c && s'[|a| + |b|..] == c';
  }
}
