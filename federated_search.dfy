/**
 * The federated search of the gateway: two stub providers, each returning a
 * fixed list built from the query, run as a vector of tasks, joined, and
 * flattened into one list.
 *
 * The Rust file this models (src/federated_search.rs) is not declared as a
 * module of the crate's main.rs, which names only middleware, routes and
 * services; it is modelled as written. The simulated network delays and the
 * log lines are left out. The scheduler is represented only by the order in
 * which the tasks finish, a parameter of `PerformFederatedSearch`.
 */
module FederatedSearch {
  import opened Wrappers
  import opened Results

  /** The stub Google provider: two ranked results for the query. */
  function SearchGoogle(query: string): (r: seq<string>)
    ensures |r| == 2
    ensures forall k {:trigger Parse(r[k])} :: 0 <= k < |r| ==> Parse(r[k]) == Some(Hit(Google, k + 1, query))
  {
    RenderEach([Hit(Google, 1, query), Hit(Google, 2, query)])
  }

  /** The two Google lines, written out. */
  lemma GoogleLines(query: string)
    ensures SearchGoogle(query) == ["Google Result 1 for '" + query + "'", "Google Result 2 for '" + query + "'"]
  {
    assert Digit(1) == '1' && Digit(2) == '2';
    var r := SearchGoogle(query);
    assert r[0] == Render(Hit(Google, 1, query));
    RenderLiteral(Hit(Google, 1, query), "Google Result 1 for '");
    assert r[1] == Render(Hit(Google, 2, query));
    RenderLiteral(Hit(Google, 2, query), "Google Result 2 for '");
  }

  /** The stub Amazon provider: two ranked results for the query. */
  function SearchAmazon(query: string): (r: seq<string>)
    ensures |r| == 2
    ensures forall k {:trigger Parse(r[k])} :: 0 <= k < |r| ==> Parse(r[k]) == Some(Hit(Amazon, k + 1, query))
  {
    RenderEach([Hit(Amazon, 1, query), Hit(Amazon, 2, query)])
  }

  /** The two Amazon lines, written out. */
  lemma AmazonLines(query: string)
    ensures SearchAmazon(query) == ["Amazon Result 1 for '" + query + "'", "Amazon Result 2 for '" + query + "'"]
  {
    assert Digit(1) == '1' && Digit(2) == '2';
    var r := SearchAmazon(query);
    assert r[0] == Render(Hit(Amazon, 1, query));
    RenderLiteral(Hit(Amazon, 1, query), "Amazon Result 1 for '");
    assert r[1] == Render(Hit(Amazon, 2, query));
    RenderLiteral(Hit(Amazon, 2, query), "Amazon Result 2 for '");
  }

  /** The providers in the order their tasks are placed in the task vector. */
  const TaskProviders: seq<Source> := [Google, Amazon]

  /** The outputs of the task vector, in task order; each task gets its own copy of the query. */
  function SearchTasks(query: string): (r: seq<seq<string>>)
    ensures |r| == |TaskProviders|
    ensures forall i, k {:trigger Parse(r[i][k])} :: 0 <= i < |r| && 0 <= k < |r[i]| ==>
      Parse(r[i][k]) == Some(Hit(TaskProviders[i], k + 1, query))
  {
    [SearchGoogle(query), SearchAmazon(query)]
  }

  // ---- join_all: collecting task outputs whatever order they finish in ----

  /** `order` lists each of the `n` task indices exactly once: the order the tasks finish in. */
  predicate CompletionOrder(order: seq<nat>, n: nat) {
    && |order| == n
    && (forall k :: 0 <= k < |order| ==> order[k] < n)
    && (forall i :: 0 <= i < n ==> i in order)
  }

  /**
   * Marks each task in `order` as done, storing its output in that task's own
   * slot; a slot whose task has not finished keeps its previous content.
   */
  function Complete<T>(slots: seq<Option<T>>, outputs: seq<T>, order: seq<nat>): (r: seq<Option<T>>)
    requires |slots| == |outputs|
    requires forall k :: 0 <= k < |order| ==> order[k] < |outputs|
    ensures |r| == |slots|
    ensures forall i :: 0 <= i < |r| ==> r[i] == (if i in order then Some(outputs[i]) else slots[i])
    decreases |order|
  {
    if order == [] then slots
    else Complete(slots[order[0] := Some(outputs[order[0]])], outputs, order[1..])
  }

  /**
   * join_all: every slot starts pending, the tasks finish in `order`, and the
   * outputs are collected slot by slot, so in task order.
   */
  function JoinAll<T>(outputs: seq<T>, order: seq<nat>): (r: seq<T>)
    requires CompletionOrder(order, |outputs|)
    ensures r == outputs
  {
    var slots := Complete(seq(|outputs|, _ => None), outputs, order);
    seq(|outputs|, i requires 0 <= i < |outputs| => slots[i].value)
  }

  // ---- Flattening the per-task lists ----

  /** The number of items in all lists together. */
  function TotalLength<T>(xss: seq<seq<T>>): nat {
    if xss == [] then 0 else |xss[0]| + TotalLength(xss[1..])
  }

  /** `into_iter().flatten().collect()`: the lists one after another. */
  function Flatten<T>(xss: seq<seq<T>>): (r: seq<T>)
    ensures |r| == TotalLength(xss)
  {
    if xss == [] then [] else xss[0] + Flatten(xss[1..])
  }

  /** Where the items of list `i` start in the flattened list. */
  function Offset<T>(xss: seq<seq<T>>, i: nat): nat
    requires i <= |xss|
  {
    TotalLength(xss[..i])
  }

  lemma {:induction false} TotalLengthAppend<T>(a: seq<seq<T>>, b: seq<seq<T>>)
    ensures TotalLength(a + b) == TotalLength(a) + TotalLength(b)
  {
    if a != [] {
      assert (a + b)[1..] == a[1..] + b;
      TotalLengthAppend(a[1..], b);
    } else {
      assert a + b == b;
    }
  }

  /** Flattening distributes over concatenation of the outer list. */
  lemma {:induction false} FlattenAppend<T>(a: seq<seq<T>>, b: seq<seq<T>>)
    ensures Flatten(a + b) == Flatten(a) + Flatten(b)
  {
    if a != [] {
      assert (a + b)[1..] == a[1..] + b;
      FlattenAppend(a[1..], b);
    } else {
      assert a + b == b;
    }
  }

  /** Item `k` of list `i` sits at position `Offset(xss, i) + k` of the flattened list. */
  lemma {:induction false} FlattenAt<T>(xss: seq<seq<T>>, i: nat, k: nat)
    requires i < |xss| && k < |xss[i]|
    ensures Offset(xss, i) + k < |Flatten(xss)|
    ensures Flatten(xss)[Offset(xss, i) + k] == xss[i][k]
  {
    assert xss == xss[..i] + xss[i..];
    FlattenAppend(xss[..i], xss[i..]);
    TotalLengthAppend(xss[..i], xss[i..]);
    assert Flatten(xss[i..]) == xss[i] + Flatten(xss[i + 1..]) by {
      assert xss[i..][1..] == xss[i + 1..];
    }
  }

  /** Later lists start after every item of earlier lists. */
  lemma {:induction false} OffsetsOrdered<T>(xss: seq<seq<T>>, i: nat, j: nat)
    requires i < j <= |xss|
    ensures Offset(xss, i) + |xss[i]| <= Offset(xss, j)
  {
    assert xss[..j] == xss[..i] + [xss[i]] + xss[i + 1..j];
    TotalLengthAppend(xss[..i] + [xss[i]], xss[i + 1..j]);
    TotalLengthAppend(xss[..i], [xss[i]]);
    assert TotalLength([xss[i]]) == |xss[i]| by {
      assert [xss[i]][1..] == [];
    }
  }

  /** An item is in the flattened list exactly when it is in one of the lists. */
  lemma {:induction false} FlattenMembers<T>(xss: seq<seq<T>>, x: T)
    ensures x in Flatten(xss) <==> exists i :: 0 <= i < |xss| && x in xss[i]
  {
    if xss != [] {
      FlattenMembers(xss[1..], x);
      if x in Flatten(xss[1..]) {
        var i :| 0 <= i < |xss[1..]| && x in xss[1..][i];
        assert x in xss[i + 1];
      }
      if exists i :: 0 <= i < |xss| && x in xss[i] {
        var i :| 0 <= i < |xss| && x in xss[i];
        if i > 0 {
          assert x in xss[1..][i - 1];
        }
      }
    }
  }

  // ---- The federated search ----

  /**
   * perform_federated_search: run the task vector, let the tasks finish in
   * `order` (whatever the scheduler decides), join and flatten.
   */
  function PerformFederatedSearch(query: string, order: seq<nat>): (r: seq<string>)
    requires CompletionOrder(order, |TaskProviders|)
    ensures r == SearchGoogle(query) + SearchAmazon(query)
    ensures |r| == |SearchGoogle(query)| + |SearchAmazon(query)| == 4
  {
    var tasks := SearchTasks(query);
    var joined := JoinAll(tasks, order);
    assert Flatten([tasks[1]]) == tasks[1] by {
      assert [tasks[1]][1..] == [];
    }
    Flatten(joined)
  }

  /** The merged list does not depend on the order in which the providers finish. */
  lemma OrderIndependent(query: string, order1: seq<nat>, order2: seq<nat>)
    requires CompletionOrder(order1, |TaskProviders|) && CompletionOrder(order2, |TaskProviders|)
    ensures PerformFederatedSearch(query, order1) == PerformFederatedSearch(query, order2)
  {
  }

  /** The merged list is the concatenation of the task outputs in task order. */
  lemma MergeIsFlattenOfTasks(query: string, order: seq<nat>)
    requires CompletionOrder(order, |TaskProviders|)
    ensures PerformFederatedSearch(query, order) == Flatten(SearchTasks(query))
    ensures |PerformFederatedSearch(query, order)| == TotalLength(SearchTasks(query))
  {
    var tasks := SearchTasks(query);
    assert tasks == [tasks[0]] + [tasks[1]];
    FlattenAppend([tasks[0]], [tasks[1]]);
    assert Flatten([tasks[0]]) == tasks[0] by { assert [tasks[0]][1..] == []; }
    assert Flatten([tasks[1]]) == tasks[1] by { assert [tasks[1]][1..] == []; }
  }

  /** Line `k` of the merged list: Google's two results in rank order, then Amazon's. */
  lemma MergedLine(query: string, order: seq<nat>, k: nat)
    requires CompletionOrder(order, |TaskProviders|)
    requires k < |PerformFederatedSearch(query, order)|
    ensures Parse(PerformFederatedSearch(query, order)[k])
         == Some(if k < 2 then Hit(Google, k + 1, query) else Hit(Amazon, k - 1, query))
  {
    var r := PerformFederatedSearch(query, order);
    var google, amazon := SearchGoogle(query), SearchAmazon(query);
    assert r == google + amazon;
    if k < 2 {
      assert r[k] == google[k];
    } else {
      assert r[k] == amazon[k - 2];
    }
  }

  /** Every Google result comes before every Amazon result. */
  lemma GoogleBeforeAmazon(query: string, order: seq<nat>, i: nat, j: nat)
    requires CompletionOrder(order, |TaskProviders|)
    requires i < |PerformFederatedSearch(query, order)| && j < |PerformFederatedSearch(query, order)|
    requires SourceOf(PerformFederatedSearch(query, order)[i]) == Google
    requires SourceOf(PerformFederatedSearch(query, order)[j]) == Amazon
    ensures i < j
  {
    MergedLine(query, order, i);
    MergedLine(query, order, j);
  }

  /** Within each provider, result 1 comes before result 2. */
  lemma RanksAscendWithinProvider(query: string, order: seq<nat>, i: nat, j: nat)
    requires CompletionOrder(order, |TaskProviders|)
    requires i < j < |PerformFederatedSearch(query, order)|
    requires SourceOf(PerformFederatedSearch(query, order)[i]) == SourceOf(PerformFederatedSearch(query, order)[j])
    ensures Parse(PerformFederatedSearch(query, order)[i]).value.rank
          < Parse(PerformFederatedSearch(query, order)[j]).value.rank
  {
    MergedLine(query, order, i);
    MergedLine(query, order, j);
  }

  /** Every merged line carries the query, unchanged, and embeds it as text. */
  lemma MergedLinesCarryQuery(query: string, order: seq<nat>, k: nat)
    requires CompletionOrder(order, |TaskProviders|)
    requires k < |PerformFederatedSearch(query, order)|
    ensures Parse(PerformFederatedSearch(query, order)[k]).Some?
    ensures Parse(PerformFederatedSearch(query, order)[k]).value.query == query
    ensures ContainsText(PerformFederatedSearch(query, order)[k], query)
  {
    MergedLine(query, order, k);
    var h := if k < 2 then Hit(Google, k + 1, query) else Hit(Amazon, k - 1, query);
    var r := PerformFederatedSearch(query, order);
    ParseRender(h);
    if k < 2 {
      assert r[k] == SearchGoogle(query)[k];
      assert r[k] == Render(Hit(Google, k + 1, query));
    } else {
      assert r[k] == SearchAmazon(query)[k - 2];
      assert r[k] == Render(Hit(Amazon, k - 1, query));
    }
    RenderContainsQuery(h);
  }

  /** Two searches for different queries share no line: results never mix between calls. */
  lemma QueriesDoNotMix(q1: string, q2: string, order1: seq<nat>, order2: seq<nat>, line: string)
    requires CompletionOrder(order1, |TaskProviders|) && CompletionOrder(order2, |TaskProviders|)
    requires q1 != q2
    requires line in PerformFederatedSearch(q1, order1)
    ensures line !in PerformFederatedSearch(q2, order2)
  {
    var r1 := PerformFederatedSearch(q1, order1);
    var r2 := PerformFederatedSearch(q2, order2);
    var i :| 0 <= i < |r1| && r1[i] == line;
    MergedLinesCarryQuery(q1, order1, i);
    if line in r2 {
      var j :| 0 <= j < |r2| && r2[j] == line;
      MergedLinesCarryQuery(q2, order2, j);
    }
  }
}
