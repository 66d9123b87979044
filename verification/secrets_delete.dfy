/**
 * The `secrets delete` command: one delete call per selected secret, one
 * output per call, then a stable sort that lists the failed deletions before
 * the successful ones, printed as a table.
 */
module SecretsDelete {
  import opened Results
  import opened Text

  const NoSecretsMessage := "No secrets to delete"
  /** Table column names; their text is defined in a file that is not part of
      this model, and only their being distinct matters here. */
  const HeaderDeleted := "Deleted"
  const HeaderDetails := "Details"

  datatype App = App(groupId: string, id: string)
  datatype Secret = Secret(id: string, name: string)

  /** One delete attempt: the secret and the error its deletion returned. */
  datatype SecretOutput = SecretOutput(secret: Secret, err: Option<string>)

  /** A table cell: the "deleted" flag or an error message. */
  datatype Cell = BoolCell(flag: bool) | StringCell(text: string)

  /** What the command prints. */
  datatype Log =
    | TextLog(message: string)
    | TableLog(title: string, headers: seq<string>, rows: seq<map<string, Cell>>)

  /** The calls the handler makes: app resolution, the secret listing, the
      selection (flags or prompt), and DeleteSecret. DeleteSecret changes the
      server, so each call gets its own answer: `deleteSecret(app, id, n)` is
      what the call numbered `n` (from 0) answers. `baseRow` is the row
      `tableRows` starts each output's row with. */
  datatype DeleteEnv = DeleteEnv(
    resolvedApp: Result<App>,
    listSecrets: App -> Result<seq<Secret>>,
    selectSecrets: seq<Secret> -> Result<seq<Secret>>,
    deleteSecret: (App, string, nat) -> Option<string>,
    baseRow: Secret -> map<string, Cell>)

  /** The app and the secrets chosen for deletion. */
  datatype Selection = Selection(app: App, selected: seq<Secret>)

  function SelectSecrets(env: DeleteEnv): Result<Selection> {
    var app :- env.resolvedApp;
    var secrets :- env.listSecrets(app);
    var selected :- env.selectSecrets(secrets);
    Ok(Selection(app, selected))
  }

  predicate Failed(o: SecretOutput) {
    o.err.Some?
  }

  /** The comparison handed to sort.SliceStable: a failure sorts before a success. */
  predicate Less(x: SecretOutput, y: SecretOutput) {
    Failed(x) && !Failed(y)
  }

  /** `Less` is a strict weak order, as sort.SliceStable needs: irreflexive,
      transitive, and outputs it cannot tell apart are those with the same outcome. */
  lemma LessIsStrictWeakOrder(x: SecretOutput, y: SecretOutput, z: SecretOutput)
    ensures !Less(x, x)
    ensures Less(x, y) && Less(y, z) ==> Less(x, z)
    ensures (!Less(x, y) && !Less(y, x)) <==> (Failed(x) <==> Failed(y))
  {
  }

  /** The failed attempts of `s`, in their order in `s`. */
  function Failures(s: seq<SecretOutput>): (r: seq<SecretOutput>)
    ensures forall i :: 0 <= i < |r| ==> Failed(r[i])
  {
    if s == [] then []
    else Failures(s[..|s| - 1]) + (if Failed(s[|s| - 1]) then [s[|s| - 1]] else [])
  }

  /** The successful attempts of `s`, in their order in `s`. */
  function Successes(s: seq<SecretOutput>): (r: seq<SecretOutput>)
    ensures forall i :: 0 <= i < |r| ==> !Failed(r[i])
  {
    if s == [] then []
    else Successes(s[..|s| - 1]) + (if !Failed(s[|s| - 1]) then [s[|s| - 1]] else [])
  }

  /** The order the stable sort leaves the outputs in. */
  function ErrorsFirst(s: seq<SecretOutput>): seq<SecretOutput> {
    Failures(s) + Successes(s)
  }

  /** No success comes before a failure. */
  predicate Partitioned(s: seq<SecretOutput>) {
    forall i, j :: 0 <= i < j < |s| && Failed(s[j]) ==> Failed(s[i])
  }

  /** The last attempt lands in exactly one of the two filters. */
  lemma FiltersStep(s: seq<SecretOutput>)
    requires s != []
    ensures var init, x := s[..|s| - 1], s[|s| - 1];
            if Failed(x) then Failures(s) == Failures(init) + [x] && Successes(s) == Successes(init)
            else Failures(s) == Failures(init) && Successes(s) == Successes(init) + [x]
  {
  }

  /** Every attempt is either a failure or a success: the two filters together are as long as `s`. */
  lemma {:induction false} FiltersCount(s: seq<SecretOutput>)
    ensures |Failures(s)| + |Successes(s)| == |s|
  {
    if s != [] {
      FiltersCount(s[..|s| - 1]);
      FiltersStep(s);
    }
  }

  /** ... and together hold exactly the attempts of `s`. */
  lemma {:induction false} FiltersSplit(s: seq<SecretOutput>)
    ensures multiset(Failures(s)) + multiset(Successes(s)) == multiset(s)
  {
    if s != [] {
      var init, x := s[..|s| - 1], s[|s| - 1];
      FiltersSplit(init);
      FiltersStep(s);
      assert multiset(s) == multiset(init) + multiset{x} by {
        assert s == init + [x];
      }
    }
  }

  /** The sorted outputs hold the same attempts as before sorting: a permutation. */
  lemma ErrorsFirstIsPermutation(s: seq<SecretOutput>)
    ensures |ErrorsFirst(s)| == |s|
    ensures multiset(ErrorsFirst(s)) == multiset(s)
  {
    FiltersCount(s);
    FiltersSplit(s);
  }

  /** After sorting, every failure precedes every success. */
  lemma ErrorsFirstIsPartitioned(s: seq<SecretOutput>)
    ensures Partitioned(ErrorsFirst(s))
  {
    var r, f := ErrorsFirst(s), Failures(s);
    forall i, j | 0 <= i < j < |r| && Failed(r[j]) ensures Failed(r[i]) {
      assert j < |f|;
    }
  }

  lemma {:induction false} FiltersOfConcat(a: seq<SecretOutput>, b: seq<SecretOutput>)
    ensures Failures(a + b) == Failures(a) + Failures(b)
    ensures Successes(a + b) == Successes(a) + Successes(b)
    decreases |b|
  {
    if b == [] {
      assert a + b == a;
    } else {
      var init := b[..|b| - 1];
      assert (a + b)[..|a + b| - 1] == a + init;
      FiltersOfConcat(a, init);
    }
  }

  lemma {:induction false} AllFailed(s: seq<SecretOutput>)
    requires forall i :: 0 <= i < |s| ==> Failed(s[i])
    ensures Failures(s) == s && Successes(s) == []
  {
    if s != [] {
      AllFailed(s[..|s| - 1]);
    }
  }

  lemma {:induction false} AllSucceeded(s: seq<SecretOutput>)
    requires forall i :: 0 <= i < |s| ==> !Failed(s[i])
    ensures Failures(s) == [] && Successes(s) == s
  {
    if s != [] {
      AllSucceeded(s[..|s| - 1]);
    }
  }

  /** The sort is stable: failures keep their relative order, and so do successes. */
  lemma ErrorsFirstIsStable(s: seq<SecretOutput>)
    ensures Failures(ErrorsFirst(s)) == Failures(s)
    ensures Successes(ErrorsFirst(s)) == Successes(s)
  {
    FiltersOfConcat(Failures(s), Successes(s));
    AllFailed(Failures(s));
    AllSucceeded(Successes(s));
  }

  /** A partitioned sequence is its failures followed by its successes. */
  lemma {:induction false} PartitionedSplits(t: seq<SecretOutput>)
    requires Partitioned(t)
    ensures t == Failures(t) + Successes(t)
  {
    if t != [] {
      var init, x := t[..|t| - 1], t[|t| - 1];
      assert t == init + [x];
      PartitionedSplits(init);
      if Failed(x) {
        AllFailed(init);
      }
    }
  }

  /** Only one order is both errors-first and stable, so any stable sort with
      this comparison, whatever its algorithm, yields ErrorsFirst. */
  lemma StableOrderIsUnique(s: seq<SecretOutput>, t: seq<SecretOutput>)
    requires Partitioned(t)
    requires Failures(t) == Failures(s) && Successes(t) == Successes(s)
    ensures t == ErrorsFirst(s)
  {
    PartitionedSplits(t);
  }

  /** In the sorted prefix, the failures end exactly where the insertion sort
      stops: after a failure (or at the start) and before only successes. */
  lemma FailuresEndAt(t: seq<SecretOutput>, j: nat)
    requires j <= |t| && |ErrorsFirst(t)| == |t|
    requires forall k :: j <= k < |t| ==> !Failed(ErrorsFirst(t)[k])
    requires j > 0 ==> Failed(ErrorsFirst(t)[j - 1])
    ensures j == |Failures(t)|
  {
    var f, u, p := Failures(t), Successes(t), ErrorsFirst(t);
    assert forall k :: 0 <= k < |f| ==> Failed(p[k]);
    assert forall k :: |f| <= k < |p| ==> !Failed(p[k]);
    assert j < |t| ==> !Failed(p[j]);
    assert j > 0 ==> Failed(p[j - 1]);
  }

  /** Inserting a failed attempt `x` at position `j` of the sorted prefix, where
      the insertion sort stops (just after the last failure), gives the sorted
      prefix one longer. */
  lemma InsertFailure(t: seq<SecretOutput>, x: SecretOutput, j: nat)
    requires Failed(x) && j <= |t| && |ErrorsFirst(t)| == |t|
    requires forall k :: j <= k < |t| ==> !Failed(ErrorsFirst(t)[k])
    requires j > 0 ==> Failed(ErrorsFirst(t)[j - 1])
    ensures ErrorsFirst(t)[..j] + [x] + ErrorsFirst(t)[j..] == ErrorsFirst(t + [x])
  {
    FailuresEndAt(t, j);
    var f, u, p := Failures(t), Successes(t), ErrorsFirst(t);
    assert p[..j] == f && p[j..] == u;
    assert (t + [x])[..|t|] == t;
    FiltersStep(t + [x]);
  }

  /** A successful attempt stays where it is, at the end of the sorted prefix. */
  lemma InsertSuccess(t: seq<SecretOutput>, x: SecretOutput)
    requires !Failed(x)
    ensures ErrorsFirst(t) + [x] == ErrorsFirst(t + [x])
  {
    assert (t + [x])[..|t|] == t;
    FiltersStep(t + [x]);
  }

  /**
   * One pass of Go's insertion sort: the output at `i` is swapped leftwards
   * while it is `Less` than its left neighbour. The first `i` outputs are
   * already in order, being the sorted form of `t`.
   */
  method InsertLeft(a: array<SecretOutput>, i: nat, ghost t: seq<SecretOutput>)
    requires i < a.Length && |t| == i
    requires a[..i] == ErrorsFirst(t)
    modifies a
    ensures a[..i + 1] == ErrorsFirst(t + [old(a[i])])
    ensures a[i + 1..] == old(a[i + 1..])
  {
    ghost var p := a[..i];
    ghost var x := a[i];
    var j := i;
    while j > 0 && Less(a[j], a[j - 1])
      invariant 0 <= j <= i
      invariant a[j] == x
      invariant forall k :: 0 <= k < j ==> a[k] == p[k]
      invariant forall k :: j < k <= i ==> a[k] == p[k - 1]
      invariant a[i + 1..] == old(a[i + 1..])
      invariant forall k :: j <= k < i ==> !Failed(p[k])
      invariant !Failed(x) ==> j == i
    {
      a[j], a[j - 1] := a[j - 1], a[j];
      j := j - 1;
    }
    ErrorsFirstIsPermutation(t);
    ghost var q := p[..j] + [x] + p[j..];
    forall k | 0 <= k <= i
      ensures a[k] == q[k]
    {
      if k < j {
        assert q[k] == p[k];
      } else if k > j {
        assert q[k] == p[k - 1];
      }
    }
    assert a[..i + 1] == q;
    if Failed(x) {
      InsertFailure(t, x, j);
    } else {
      assert q == p + [x];
      InsertSuccess(t, x);
    }
  }

  /**
   * sort.SliceStable with `Less`, done as Go's insertion sort: each output
   * is swapped leftwards past the successes before it.
   */
  method SortErrorsFirst(a: array<SecretOutput>)
    modifies a
    ensures a[..] == ErrorsFirst(old(a[..]))
  {
    ghost var s := a[..];
    var i := 0;
    while i < a.Length
      invariant 0 <= i <= a.Length
      invariant a[..i] == ErrorsFirst(s[..i])
      invariant a[i..] == s[i..]
    {
      assert s[..i + 1] == s[..i] + [a[i]];
      InsertLeft(a, i, s[..i]);
      i := i + 1;
    }
    assert s[..a.Length] == s;
  }

  /**
   * tableRowDelete: fills a row for one output. The row map is updated in
   * place in the source; here the updated map is returned.
   */
  function TableRowDelete(output: SecretOutput, row: map<string, Cell>): (r: map<string, Cell>)
    ensures HeaderDeleted in r && r[HeaderDeleted] == BoolCell(!Failed(output))
    ensures Failed(output) ==> HeaderDetails in r && r[HeaderDetails] == StringCell(output.err.value)
    // the details cell is written only for a failure
    ensures !Failed(output) ==> (HeaderDetails in r <==> HeaderDetails in row)
    ensures !Failed(output) && HeaderDetails in row ==> r[HeaderDetails] == row[HeaderDetails]
    ensures forall k :: k in row && k != HeaderDeleted && k != HeaderDetails ==> k in r && r[k] == row[k]
    ensures r.Keys == row.Keys + {HeaderDeleted} + (if Failed(output) then {HeaderDetails} else {})
  {
    var row' := if output.err.Some? then row[HeaderDetails := StringCell(output.err.value)] else row;
    row'[HeaderDeleted := BoolCell(output.err.None?)]
  }

  /** The rows of the table, one per output, in order: each output's base row
      filled in by tableRowDelete. */
  function TableRows(outputs: seq<SecretOutput>, baseRow: Secret -> map<string, Cell>): (rows: seq<map<string, Cell>>)
    ensures |rows| == |outputs|
    ensures forall i :: 0 <= i < |rows| ==> rows[i] == TableRowDelete(outputs[i], baseRow(outputs[i].secret))
  {
    seq(|outputs|, i requires 0 <= i < |outputs| => TableRowDelete(outputs[i], baseRow(outputs[i].secret)))
  }

  function DeletionTitle(count: nat): string {
    "Deleted " + Decimal(count) + " secret(s)"
  }

  function DeletionTable(outputs: seq<SecretOutput>, baseRow: Secret -> map<string, Cell>): Log {
    TableLog(DeletionTitle(|outputs|), [HeaderDeleted, HeaderDetails], TableRows(outputs, baseRow))
  }

  /** Filled in from a base row without details, a row says "deleted"
      exactly when it carries no details. */
  lemma RowDeletedIffNoDetails(output: SecretOutput, row: map<string, Cell>)
    requires HeaderDetails !in row
    ensures var r := TableRowDelete(output, row);
            r[HeaderDeleted].BoolCell? && (r[HeaderDeleted].flag <==> HeaderDetails !in r)
  {
  }

  /** The outputs of the attempts, one per selected secret, in selection order:
      the i-th pairs the i-th secret with what the i-th delete call answered. */
  function Attempts(env: DeleteEnv, app: App, selected: seq<Secret>): (r: seq<SecretOutput>)
    ensures |r| == |selected|
    ensures forall i :: 0 <= i < |r| ==> r[i] == SecretOutput(selected[i], env.deleteSecret(app, selected[i].id, i))
  {
    seq(|selected|, i requires 0 <= i < |selected| => SecretOutput(selected[i], env.deleteSecret(app, selected[i].id, i)))
  }

  /** Deleting the same secret twice need not give the same answer twice:
      when the first call removes it, the second can fail. */
  lemma RepeatedDeleteAnsweredPerCall(env: DeleteEnv, app: App, s: Secret)
    requires forall a, id, n :: env.deleteSecret(a, id, n) == if n == 0 then None else Some("secret not found")
    ensures var attempts := Attempts(env, app, [s, s]);
            && attempts[0] == SecretOutput(s, None)
            && attempts[1] == SecretOutput(s, Some("secret not found"))
  {
  }

  function IdsOf(selected: seq<Secret>): (ids: seq<string>)
    ensures |ids| == |selected|
  {
    seq(|selected|, i requires 0 <= i < |selected| => selected[i].id)
  }

  /** The printed table has one row per attempt: row i is the row of the i-th
      sorted output, the sorted outputs are the attempts rearranged, and when
      the base rows carry no details, every failed deletion is listed before
      every successful one. */
  lemma TableListsFailuresFirst(attempts: seq<SecretOutput>, baseRow: Secret -> map<string, Cell>)
    ensures var sorted := ErrorsFirst(attempts);
            var rows := DeletionTable(sorted, baseRow).rows;
            && |rows| == |attempts|
            && multiset(sorted) == multiset(attempts)
            && (forall i :: 0 <= i < |rows| ==> rows[i] == TableRowDelete(sorted[i], baseRow(sorted[i].secret)))
            && ((forall s :: HeaderDetails !in baseRow(s)) ==>
                  forall i, j :: 0 <= i < j < |rows| && HeaderDetails in rows[j] ==> HeaderDetails in rows[i])
  {
    var sorted := ErrorsFirst(attempts);
    ErrorsFirstIsPermutation(attempts);
    ErrorsFirstIsPartitioned(attempts);
    var rows := DeletionTable(sorted, baseRow).rows;
    forall i, j | 0 <= i < j < |rows| && HeaderDetails in rows[j] && (forall s :: HeaderDetails !in baseRow(s))
      ensures HeaderDetails in rows[i]
    {
      assert rows[j] == TableRowDelete(sorted[j], baseRow(sorted[j].secret));
      assert rows[i] == TableRowDelete(sorted[i], baseRow(sorted[i].secret));
    }
  }

  /** The count in the title is the number of attempts, failures included. */
  lemma TitleCountsEveryAttempt(env: DeleteEnv, app: App, selected: seq<Secret>)
    ensures var attempts := Attempts(env, app, selected);
            var title := DeletionTable(ErrorsFirst(attempts), env.baseRow).title;
            && title == "Deleted " + Decimal(|selected|) + " secret(s)"
            && ParseDecimal(Decimal(|selected|)) == |Failures(attempts)| + |Successes(attempts)|
  {
    var attempts := Attempts(env, app, selected);
    ErrorsFirstIsPermutation(attempts);
    FiltersCount(attempts);
    DecimalRoundTrip(|selected|);
  }

  /**
   * The command handler. Returns the error (if any), what was printed, and
   * the ids passed to DeleteSecret, in call order.
   */
  method Handler(env: DeleteEnv) returns (err: Option<string>, printed: seq<Log>, deleteCalls: seq<string>)
    ensures SelectSecrets(env).Err? ==> err == Some(SelectSecrets(env).error) && printed == [] && deleteCalls == []
    // with a selection: one delete call per selected secret, in order, whatever the calls return
    ensures SelectSecrets(env).Ok? ==>
              var selection := SelectSecrets(env).value;
              && err == None
              && deleteCalls == IdsOf(selection.selected)
              && printed == [if selection.selected == [] then TextLog(NoSecretsMessage)
                             else DeletionTable(ErrorsFirst(Attempts(env, selection.app, selection.selected)), env.baseRow)]
  {
    printed, deleteCalls := [], [];
    var app := env.resolvedApp;
    if app.Err? {
      return Some(app.error), printed, deleteCalls;
    }

    var secrets := env.listSecrets(app.value);
    if secrets.Err? {
      return Some(secrets.error), printed, deleteCalls;
    }

    var selected := env.selectSecrets(secrets.value);
    if selected.Err? {
      return Some(selected.error), printed, deleteCalls;
    }

    if |selected.value| == 0 {
      printed := [TextLog(NoSecretsMessage)];
      return None, printed, deleteCalls;
    }

    var outputs := new SecretOutput[|selected.value|](_ => SecretOutput(Secret("", ""), None));
    for i := 0 to outputs.Length
      invariant |deleteCalls| == i
      invariant forall k :: 0 <= k < i ==> deleteCalls[k] == selected.value[k].id
      invariant forall k :: 0 <= k < i ==>
                  outputs[k] == SecretOutput(selected.value[k], env.deleteSecret(app.value, selected.value[k].id, k))
    {
      var secret := selected.value[i];
      var deleteErr := env.deleteSecret(app.value, secret.id, i);
      deleteCalls := deleteCalls + [secret.id];
      outputs[i] := SecretOutput(secret, deleteErr);
    }
    assert outputs[..] == Attempts(env, app.value, selected.value);

    SortErrorsFirst(outputs);

    printed := [DeletionTable(outputs[..], env.baseRow)];
    err := None;
  }
}
