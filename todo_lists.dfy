/**
 * The array operations the application controller applies to its list of
 * todos, with JavaScript's semantics: `findIndex`, `splice(index, 1, item)`,
 * `filter` and `every`, and the list updates built from them.
 */
module TodoLists {
  import opened Model

  /** `s.findIndex(t => t.id === id)`: the first position holding `id`, or -1. */
  function FindIndex(s: seq<Todo>, id: int): (r: int)
    ensures -1 <= r < |s|
    ensures r == -1 <==> forall k :: 0 <= k < |s| ==> s[k].id != id
    ensures r >= 0 ==> s[r].id == id && forall k :: 0 <= k < r ==> s[k].id != id
  {
    if s == [] then -1
    else if s[0].id == id then 0
    else
      var r' := FindIndex(s[1..], id);
      if r' == -1 then -1 else r' + 1
  }

  /**
   * Where `splice` starts for an array of length `len`: a negative start
   * counts from the end (and stops at 0), a start past the end is the end.
   */
  function SpliceStart(len: nat, start: int): (k: nat)
    ensures k <= len
  {
    if start < 0 then (if len + start < 0 then 0 else len + start)
    else if start > len then len
    else start
  }

  /** A copy of `s` after `splice(start, 1, item)`. */
  function SpliceOne(s: seq<Todo>, start: int, item: Todo): (r: seq<Todo>)
    ensures 0 <= start < |s| ==>
      |r| == |s| && r[start] == item && forall k :: 0 <= k < |s| && k != start ==> r[k] == s[k]
    ensures start == -1 && s != [] ==> r == s[..|s| - 1] + [item]
    ensures s == [] ==> r == [item]
  {
    var k := SpliceStart(|s|, start);
    var deleted := if k < |s| then 1 else 0;
    s[..k] + [item] + s[k + deleted..]
  }

  /**
   * The list after an update for `id` settles with the server's `item`: the
   * controller copies the list, looks the id up with `findIndex` and splices
   * the item in at that index. When the id is present the first todo with
   * that id is replaced and nothing else moves; when it is missing the index
   * is -1, so the LAST todo is overwritten, or the item is inserted into an
   * empty list.
   */
  function ReplaceById(s: seq<Todo>, id: int, item: Todo): (r: seq<Todo>)
    ensures forall i :: 0 <= i < |s| && s[i].id == id && (forall k :: 0 <= k < i ==> s[k].id != id) ==> (
      |r| == |s| && r[i] == item && forall k :: 0 <= k < |s| && k != i ==> r[k] == s[k])
    ensures (forall k :: 0 <= k < |s| ==> s[k].id != id) && s != [] ==> r == s[..|s| - 1] + [item]
    ensures s == [] ==> r == [item]
    ensures forall t :: t in r ==> t in s || t == item
  {
    SpliceOne(s, FindIndex(s, id), item)
  }

  /** `s.filter(p)`: the elements satisfying `p`, in their original order. */
  function Filter(p: Todo -> bool, s: seq<Todo>): (r: seq<Todo>)
    ensures |r| <= |s|
    ensures forall x :: x in r <==> x in s && p(x)
  {
    if s == [] then []
    else (if p(s[0]) then [s[0]] else []) + Filter(p, s[1..])
  }

  /** Filtering commutes with concatenation, so it keeps the relative order of what it keeps. */
  lemma {:induction false} FilterAppend(p: Todo -> bool, a: seq<Todo>, b: seq<Todo>)
    ensures Filter(p, a + b) == Filter(p, a) + Filter(p, b)
  {
    if a != [] {
      assert (a + b)[1..] == a[1..] + b;
      FilterAppend(p, a[1..], b);
    } else {
      assert a + b == b;
    }
  }

  /** A filter that every element passes returns the list itself. */
  lemma {:induction false} FilterKeepsAll(p: Todo -> bool, s: seq<Todo>)
    requires forall x :: x in s ==> p(x)
    ensures Filter(p, s) == s
  {
    if s != [] {
      FilterKeepsAll(p, s[1..]);
    }
  }

  /** Filtering twice by the same predicate is filtering once. */
  lemma FilterIdempotent(p: Todo -> bool, s: seq<Todo>)
    ensures Filter(p, Filter(p, s)) == Filter(p, s)
  {
    FilterKeepsAll(p, Filter(p, s));
  }

  /** A predicate and its negation split the list between them. */
  lemma {:induction false} FilterSplit(p: Todo -> bool, q: Todo -> bool, s: seq<Todo>)
    requires forall x :: q(x) == !p(x)
    ensures |Filter(p, s)| + |Filter(q, s)| == |s|
  {
    if s != [] {
      FilterSplit(p, q, s[1..]);
    }
  }

  /**
   * `s.filter(todo => todo.id !== id)`, the list after a delete of `id`
   * succeeds: every todo with that id is gone, every other one stays.
   */
  function RemoveById(s: seq<Todo>, id: int): (r: seq<Todo>)
    ensures forall t :: t in r <==> t in s && t.id != id
    ensures |r| <= |s|
  {
    Filter((t: Todo) => t.id != id, s)
  }

  /** Deleting an id the list does not hold leaves the list as it is. */
  lemma RemoveAbsentId(s: seq<Todo>, id: int)
    requires forall k :: 0 <= k < |s| ==> s[k].id != id
    ensures RemoveById(s, id) == s
  {
    FilterKeepsAll((t: Todo) => t.id != id, s);
  }

  /** Removing by id commutes with concatenation: the survivors keep their order. */
  lemma RemoveByIdAppend(a: seq<Todo>, b: seq<Todo>, id: int)
    ensures RemoveById(a + b, id) == RemoveById(a, id) + RemoveById(b, id)
  {
    FilterAppend((t: Todo) => t.id != id, a, b);
  }

  predicate IsActiveTodo(t: Todo) { !t.completed }
  predicate IsCompletedTodo(t: Todo) { t.completed }

  /**
   * The `filteredTodos` memo: the active or the completed todos for those
   * filters, and the list itself for any other.
   */
  function View(s: seq<Todo>, f: FilterKind): (r: seq<Todo>)
    ensures f == Active ==> forall t :: t in r <==> t in s && !t.completed
    ensures f == Completed ==> forall t :: t in r <==> t in s && t.completed
    ensures f == All ==> r == s
  {
    match f
    case Active => Filter(IsActiveTodo, s)
    case Completed => Filter(IsCompletedTodo, s)
    case All => s
  }

  /** The Active and Completed views together hold as many todos as the list. */
  lemma ViewsPartition(s: seq<Todo>)
    ensures |View(s, Active)| + |View(s, Completed)| == |s|
  {
    FilterSplit(IsActiveTodo, IsCompletedTodo, s);
  }

  /** Every view keeps the order of the list: it commutes with concatenation. */
  lemma ViewAppend(a: seq<Todo>, b: seq<Todo>, f: FilterKind)
    ensures View(a + b, f) == View(a, f) + View(b, f)
  {
    match f
    case Active => FilterAppend(IsActiveTodo, a, b);
    case Completed => FilterAppend(IsCompletedTodo, a, b);
    case All =>
  }

  /** `s.every(t => t.completed)`. */
  function AllCompleted(s: seq<Todo>): (r: bool)
    ensures r <==> forall k :: 0 <= k < |s| ==> s[k].completed
  {
    s == [] || (s[0].completed && AllCompleted(s[1..]))
  }

  /** Every todo is completed exactly when the Active view is empty. */
  lemma AllCompletedIffNoneActive(s: seq<Todo>)
    ensures AllCompleted(s) <==> View(s, Active) == []
  {
    if !AllCompleted(s) {
      var k :| 0 <= k < |s| && !s[k].completed;
      assert s[k] in View(s, Active);
    }
  }
}
