/** `filterTasks`: optional status and assignee filters over the task table,
    then an offset page of the matches with its pagination figures. */
module FilterController {
  import opened Basics
  import opened Types
  import opened Database
  import opened Http

  const AssignedUserNotFound := "Assigned user not found"
  const InvalidStatus := "Invalid status"
  const DefaultSkip: nat := 0
  const DefaultTake: nat := 10

  /** The query string: `status`, `assignedUserId`, and `skip` and `take`
      already read as numbers (`None` when the parameter is absent). */
  datatype FilterQuery = FilterQuery(status: Option<string>, assignedUserId: Option<string>, skip: Option<nat>, take: Option<nat>)

  /** The `where` object: a field is present only when it constrains. */
  datatype TaskFilter = TaskFilter(status: Option<TaskStatus>, assignedUserId: Option<Id>)

  /** JavaScript truthiness of a query string: present and not empty. */
  predicate Given(p: Option<string>)
  {
    p.Some? && p.value != ""
  }

  predicate Matches(t: Task, f: TaskFilter)
  {
    && (f.status.Some? ==> t.status == f.status.value)
    && (f.assignedUserId.Some? ==> t.assignedUserId == f.assignedUserId.value)
  }

  /** The filter the handler builds from an admissible query. */
  function FilterOf(q: FilterQuery): (f: TaskFilter)
    ensures f.assignedUserId.Some? <==> Given(q.assignedUserId)
    ensures f.assignedUserId.Some? ==> f.assignedUserId.value == q.assignedUserId.value
    ensures f.status.Some? ==> Given(q.status) && TaskStatusName(f.status.value) == q.status.value
    ensures Given(q.status) && ParseTaskStatus(q.status.value).Some? ==> f.status == ParseTaskStatus(q.status.value)
  {
    TaskFilter(
      if Given(q.status) then ParseTaskStatus(q.status.value) else None,
      if Given(q.assignedUserId) then Some(q.assignedUserId.value) else None)
  }

  /** The query passes both checks: a given assignee exists, a given status
      is one of the three names. */
  predicate Admissible(users: map<Id, User>, q: FilterQuery)
  {
    && (Given(q.assignedUserId) ==> q.assignedUserId.value in users)
    && (Given(q.status) ==> ParseTaskStatus(q.status.value).Some?)
  }

  /** The match rule of an admissible query: a task matches if and only if
      its status is the one named (when a status is given) and its assignee
      is the one named (when an assignee is given). */
  lemma MatchRule(q: FilterQuery, t: Task)
    requires Given(q.status) ==> ParseTaskStatus(q.status.value).Some?
    ensures Matches(t, FilterOf(q)) <==>
              && (Given(q.status) ==> TaskStatusName(t.status) == q.status.value)
              && (Given(q.assignedUserId) ==> t.assignedUserId == q.assignedUserId.value)
  {
    if Given(q.status) {
      var s := ParseTaskStatus(q.status.value).value;
      assert TaskStatusName(s) == q.status.value;
      TaskStatusRoundTrip(t.status);
    }
  }

  /** An empty or absent parameter adds no constraint. */
  lemma EmptyParametersMatchAll(q: FilterQuery, t: Task)
    requires !Given(q.status) && !Given(q.assignedUserId)
    ensures Matches(t, FilterOf(q))
  {
  }

  /** The database's row order lists every task exactly once. */
  ghost predicate RowOrder(order: seq<Id>, tasks: map<Id, Task>)
  {
    && (forall i, j :: 0 <= i < j < |order| ==> order[i] != order[j])
    && (forall id :: id in order <==> id in tasks)
  }

  /** The matching task ids, in row order. */
  function Matching(order: seq<Id>, tasks: map<Id, Task>, f: TaskFilter): (ids: seq<Id>)
    ensures forall id :: id in ids ==> id in tasks && Matches(tasks[id], f)
    ensures |ids| <= |order|
  {
    if order == [] then []
    else
      var rest := Matching(order[1..], tasks, f);
      if order[0] in tasks && Matches(tasks[order[0]], f) then [order[0]] + rest else rest
  }

  lemma {:induction false} MatchingMembers(order: seq<Id>, tasks: map<Id, Task>, f: TaskFilter, id: Id)
    ensures id in Matching(order, tasks, f) <==> id in order && id in tasks && Matches(tasks[id], f)
  {
    if order != [] {
      MatchingMembers(order[1..], tasks, f, id);
      assert id in order <==> id == order[0] || id in order[1..];
    }
  }

  /** The set of matching tasks, independent of any order. */
  ghost function MatchSet(tasks: map<Id, Task>, f: TaskFilter): set<Id>
  {
    set id | id in tasks && Matches(tasks[id], f)
  }

  lemma {:induction false} MatchingCountOrdered(order: seq<Id>, tasks: map<Id, Task>, f: TaskFilter)
    requires forall i, j :: 0 <= i < j < |order| ==> order[i] != order[j]
    ensures |Matching(order, tasks, f)| == |set id | id in order && id in tasks && Matches(tasks[id], f)|
  {
    if order != [] {
      var tail := order[1..];
      MatchingCountOrdered(tail, tasks, f);
      var here := set id | id in order && id in tasks && Matches(tasks[id], f);
      var there := set id | id in tail && id in tasks && Matches(tasks[id], f);
      assert order[0] !in tail by {
        forall k | 0 <= k < |tail| ensures tail[k] != order[0] {
          assert tail[k] == order[k + 1];
        }
      }
      if order[0] in tasks && Matches(tasks[order[0]], f) {
        assert here == {order[0]} + there;
      } else {
        assert here == there;
      }
    }
  }

  /** `totalTasks` counts every matching task, whatever `skip` and `take` are. */
  lemma MatchingCount(order: seq<Id>, tasks: map<Id, Task>, f: TaskFilter)
    requires RowOrder(order, tasks)
    ensures |Matching(order, tasks, f)| == |MatchSet(tasks, f)|
  {
    MatchingCountOrdered(order, tasks, f);
    assert (set id | id in order && id in tasks && Matches(tasks[id], f)) == MatchSet(tasks, f);
  }

  function Min(a: nat, b: nat): nat
  {
    if a <= b then a else b
  }

  /** Prisma's `skip`/`take`: the elements from `skip` on, at most `take` of them. */
  function Page<T>(s: seq<T>, skip: nat, take: nat): (r: seq<T>)
    ensures |r| == if skip >= |s| then 0 else Min(take, |s| - skip)
    ensures forall i :: 0 <= i < |r| ==> r[i] == s[skip + i]
  {
    if skip >= |s| then [] else s[skip..Min(skip + take, |s|)]
  }

  /** `Math.ceil(total / take)`: the fewest pages of `take` that hold `total`. */
  function TotalPages(total: nat, take: nat): (pages: nat)
    requires take > 0
    ensures pages * take >= total
    ensures pages > 0 ==> (pages - 1) * take < total
  {
    (total + take - 1) / take
  }

  /** `Math.floor(skip / take) + 1`: the page on which offset `skip` falls. */
  function CurrentPage(skip: nat, take: nat): (page: nat)
    requires take > 0
    ensures page >= 1
    ensures (page - 1) * take <= skip < page * take
  {
    skip / take + 1
  }

  lemma PaginationExamples()
    ensures TotalPages(25, 10) == 3
    ensures CurrentPage(0, 10) == 1
    ensures CurrentPage(20, 10) == 3
  {
  }

  /** The stored tasks behind a list of ids. */
  function Entries(ids: seq<Id>, tasks: map<Id, Task>): (r: seq<(Id, Task)>)
    requires forall id :: id in ids ==> id in tasks
    ensures |r| == |ids|
    ensures forall i :: 0 <= i < |r| ==> r[i] == (ids[i], tasks[ids[i]])
  {
    seq(|ids|, i requires 0 <= i < |ids| => (ids[i], tasks[ids[i]]))
  }

  /** The assignee is checked (404) before the status (400); otherwise the
      answer is the page `[skip, skip + take)` of the matches in row order,
      the total number of matches, and the page figures. The store is only read. */
  method FilterTasks(db: Store, query: FilterQuery, order: seq<Id>) returns (out: Outcome)
    requires query.take.Some? ==> query.take.value > 0
    requires RowOrder(order, db.tasks)
    ensures Given(query.assignedUserId) && query.assignedUserId.value !in db.users ==>
              out == Outcome(404, Message(AssignedUserNotFound))
    ensures (Given(query.assignedUserId) ==> query.assignedUserId.value in db.users)
            && Given(query.status) && ParseTaskStatus(query.status.value).None? ==>
              out == Outcome(400, Message(InvalidStatus))
    ensures Admissible(db.users, query) ==>
              var f := FilterOf(query);
              var skip := if query.skip.Some? then query.skip.value else DefaultSkip;
              var take := if query.take.Some? then query.take.value else DefaultTake;
              var matches := Matching(order, db.tasks, f);
              && out == Outcome(200, TaskPage(Entries(Page(matches, skip, take), db.tasks),
                                              Pagination(|matches|, TotalPages(|matches|, take), CurrentPage(skip, take), take)))
              && |matches| == |MatchSet(db.tasks, f)|
  {
    if Given(query.assignedUserId) && query.assignedUserId.value !in db.users {
      return Outcome(404, Message(AssignedUserNotFound));
    }
    if Given(query.status) && ParseTaskStatus(query.status.value).None? {
      return Outcome(400, Message(InvalidStatus));
    }
    var filter := TaskFilter(None, None);
    if Given(query.status) {
      filter := filter.(status := ParseTaskStatus(query.status.value));
    }
    if Given(query.assignedUserId) {
      filter := filter.(assignedUserId := Some(query.assignedUserId.value));
    }
    var skip := if query.skip.Some? then query.skip.value else DefaultSkip;
    var take := if query.take.Some? then query.take.value else DefaultTake;
    var matches := Matching(order, db.tasks, filter);
    var page := Entries(Page(matches, skip, take), db.tasks);
    MatchingCount(order, db.tasks, filter);
    var total := |matches|;
    out := Outcome(200, TaskPage(page, Pagination(total, TotalPages(total, take), CurrentPage(skip, take), take)));
  }
}
