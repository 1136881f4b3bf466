/** The expected result of a company-task search, as the search tests
    compute it from the tasks they created: a candidate phase keeps every
    task that some search argument hits, a removal phase then drops the
    candidates that some search argument rules out. Tasks and search
    arguments are JSON dicts; a dict's key order is not modelled, so each
    loop over a dict's items takes its keys in an unspecified order and the
    contracts say what holds whatever that order is. */
module SearchCompanyTasks {
  import opened Outcomes
  import opened JsonValue

  type Task = Object

  // ---------------------------------------------------------------------
  // Sequences: order and duplicates
  // ---------------------------------------------------------------------

  predicate Distinct(s: seq<Task>) {
    forall i, j | 0 <= i < j < |s| :: s[i] != s[j]
  }

  /** `xs` is `ys` with some elements left out, in the order of `ys`. */
  predicate SubsequenceOf(xs: seq<Task>, ys: seq<Task>)
    decreases |ys|
  {
    if xs == [] then true
    else if ys == [] then false
    else if xs[|xs| - 1] == ys[|ys| - 1] then SubsequenceOf(xs[..|xs| - 1], ys[..|ys| - 1])
    else SubsequenceOf(xs, ys[..|ys| - 1])
  }

  /** The tasks of `ts` that `keep` accepts, each once, in order of first
      appearance: an `append` guarded by `not in`. */
  function Pick(ts: seq<Task>, keep: Task -> bool): seq<Task>
    decreases |ts|
  {
    if ts == [] then []
    else
      var before := Pick(ts[..|ts| - 1], keep);
      var t := ts[|ts| - 1];
      if keep(t) && t !in before then before + [t] else before
  }

  lemma {:induction false} PickMembers(ts: seq<Task>, keep: Task -> bool, x: Task)
    ensures x in Pick(ts, keep) <==> x in ts && keep(x)
    decreases |ts|
  {
    if ts != [] {
      var init := ts[..|ts| - 1];
      PickMembers(init, keep, x);
      assert ts == init + [ts[|ts| - 1]];
    }
  }

  lemma {:induction false} PickDistinct(ts: seq<Task>, keep: Task -> bool)
    ensures Distinct(Pick(ts, keep))
    decreases |ts|
  {
    if ts != [] {
      PickDistinct(ts[..|ts| - 1], keep);
    }
  }

  lemma {:induction false} SubsequenceAppend(xs: seq<Task>, ys: seq<Task>, y: Task)
    requires SubsequenceOf(xs, ys)
    ensures SubsequenceOf(xs, ys + [y])
    decreases 2 * |ys| + 1
  {
    var zs := ys + [y];
    assert zs[..|zs| - 1] == ys;
    if xs != [] && xs[|xs| - 1] == y {
      SubsequenceDropLast(xs, ys);
    }
  }

  lemma {:induction false} SubsequenceDropLast(xs: seq<Task>, ys: seq<Task>)
    requires xs != [] && SubsequenceOf(xs, ys)
    ensures SubsequenceOf(xs[..|xs| - 1], ys)
    decreases 2 * |ys|
  {
    var init := ys[..|ys| - 1];
    assert ys == init + [ys[|ys| - 1]];
    if xs[|xs| - 1] == ys[|ys| - 1] {
      SubsequenceAppend(xs[..|xs| - 1], init, ys[|ys| - 1]);
    } else {
      SubsequenceDropLast(xs, init);
      SubsequenceAppend(xs[..|xs| - 1], init, ys[|ys| - 1]);
    }
  }

  lemma {:induction false} PickSubsequence(ts: seq<Task>, keep: Task -> bool)
    ensures SubsequenceOf(Pick(ts, keep), ts)
    decreases |ts|
  {
    if ts != [] {
      var init := ts[..|ts| - 1];
      var t := ts[|ts| - 1];
      var before := Pick(init, keep);
      PickSubsequence(init, keep);
      if keep(t) && t !in before {
        var after := before + [t];
        assert after[..|after| - 1] == before;
        assert after[|after| - 1] == t;
        assert SubsequenceOf(after, ts) == SubsequenceOf(before, init);
      } else {
        SubsequenceAppend(before, init, t);
        assert init + [t] == ts;
      }
    }
  }

  /** Picking from what was picked is picking by both tests at once. */
  lemma {:induction false} PickTwice(ts: seq<Task>, first: Task -> bool, second: Task -> bool)
    ensures Pick(Pick(ts, first), second) == Pick(ts, t => first(t) && second(t))
    decreases |ts|
  {
    var both := t => first(t) && second(t);
    if ts != [] {
      var init := ts[..|ts| - 1];
      var t := ts[|ts| - 1];
      var before := Pick(init, first);
      PickTwice(init, first, second);
      if first(t) && t !in before {
        var after := before + [t];
        assert after[..|after| - 1] == before;
        PickMembers(init, first, t);
        PickMembers(init, both, t);
      } else if first(t) {
        PickMembers(init, first, t);
        PickMembers(init, both, t);
      }
    }
  }

  // ---------------------------------------------------------------------
  // Field names
  // ---------------------------------------------------------------------

  /** Task keys the candidate phase does not compare with a search list. */
  predicate Unsearched(key: string) {
    key == "companyid" || key == "assignees" || key == "details" || key == "dependencies"
  }

  /** `tasks_to_search_args[field]`. */
  function SearchArgOf(field: string): Result<string> {
    if field == "id" then Ok("ids")
    else if field == "category" then Ok("categories")
    else if field == "type" then Ok("types")
    else if field == "status" then Ok("statuses")
    else if field == "ueid" then Ok("ueids")
    else if field == "advSecGuid" then Ok("advSecGuids")
    else Err(KeyError(field))
  }

  /** `search_arg_to_task[arg]`. */
  function FieldOf(arg: string): Result<string> {
    if arg == "ids" then Ok("id")
    else if arg == "categories" then Ok("category")
    else if arg == "types" then Ok("type")
    else if arg == "statuses" then Ok("status")
    else if arg == "ueids" then Ok("ueid")
    else if arg == "advSecGuids" then Ok("advSecGuid")
    else Err(KeyError(arg))
  }

  /** The two tables are inverse to each other, and each refuses the rest. */
  lemma FieldTablesInverse(field: string, arg: string)
    ensures SearchArgOf(field) == Ok(arg) <==> FieldOf(arg) == Ok(field)
    ensures SearchArgOf(field).Err? ==> SearchArgOf(field) == Err(KeyError(field))
    ensures FieldOf(arg).Err? ==> FieldOf(arg) == Err(KeyError(arg))
  {
  }

  /** `j[key]`: a dict subscript; every other value refuses a string key. */
  function Subscript(j: Json, key: string): Result<Json> {
    if !j.JObj? then Err(TypeError)
    else if key in j.fields then Ok(j.fields[key])
    else Err(KeyError(key))
  }

  // ---------------------------------------------------------------------
  // Outcomes of a loop over a dict's items
  // ---------------------------------------------------------------------

  /** The verdict of every key of a dict, each an answer or an error. */
  type Flags = map<string, Result<bool>>

  predicate FlagsOk(f: Flags) {
    forall k | k in f :: f[k].Ok?
  }

  predicate AnyTrue(f: Flags) {
    exists k | k in f :: f[k] == Ok(true)
  }

  predicate FailsWith(f: Flags, e: Error) {
    exists k | k in f :: f[k] == Err(e)
  }

  /** What a loop over the keys yields, in whatever order it takes them:
      whether some key says yes, or the error of one of the failing keys. */
  predicate Combines(f: Flags, r: Result<bool>) {
    if FlagsOk(f) then r == Ok(AnyTrue(f))
    else r.Err? && FailsWith(f, r.error)
  }

  // ---------------------------------------------------------------------
  // Candidate phase
  // ---------------------------------------------------------------------

  /** Whether some assignee holds, under `key`, a value in `listed`: every
      assignee must be a dict, and `in` is evaluated for each assignee
      holding `key`, also after a first hit. */
  function AssigneeMatch(assignees: seq<Json>, key: string, listed: Json): Result<bool>
    decreases |assignees|
  {
    if assignees == [] then Ok(false)
    else
      var before :- AssigneeMatch(assignees[..|assignees| - 1], key, listed);
      var a :- AsDict(assignees[|assignees| - 1]);
      if key in a then
        var hit :- In(a[key], listed);
        Ok(before || hit)
      else Ok(before)
  }

  /** The verdict of one `key, value` item of a task in the candidate
      phase. */
  function KeyMatch(args: Object, key: string, value: Json): Result<bool> {
    if !Unsearched(key) then
      var arg :- SearchArgOf(key);
      var listed := Get(args, arg, JNull);
      if Truthy(listed) then In(value, listed) else Ok(false)
    else if key == "assignees" && "advSecGuids" in args then
      var assignees :- Iterate(value);
      AssigneeMatch(assignees, "advSecGuid", args["advSecGuids"])
    else if key == "assignees" && "ueids" in args then
      var assignees :- Iterate(value);
      AssigneeMatch(assignees, "ueid", args["ueids"])
    else Ok(false)
  }

  function MatchFlags(args: Object, t: Task): Flags {
    map k | k in t :: KeyMatch(args, k, t[k])
  }

  predicate MatchOk(args: Object, t: Task) {
    FlagsOk(MatchFlags(args, t))
  }

  predicate Matches(args: Object, t: Task) {
    AnyTrue(MatchFlags(args, t))
  }

  predicate AllMatchOk(args: Object, tasks: seq<Task>) {
    forall i | 0 <= i < |tasks| :: MatchOk(args, tasks[i])
  }

  /** The first task whose items fail makes the search fail with the error
      of one of those items. */
  predicate CandidateFailure(args: Object, tasks: seq<Task>, e: Error) {
    exists i | 0 <= i < |tasks| ::
      (forall j | 0 <= j < i :: MatchOk(args, tasks[j])) && FailsWith(MatchFlags(args, tasks[i]), e)
  }

  function Candidates(args: Object, tasks: seq<Task>): seq<Task> {
    Pick(tasks, t => Matches(args, t))
  }

  /** The assignee loop of the candidate phase. */
  method MatchAssignees(assignees: seq<Json>, key: string, listed: Json) returns (r: Result<bool>)
    ensures r == AssigneeMatch(assignees, key, listed)
  {
    var found := false;
    for i := 0 to |assignees|
      invariant AssigneeMatch(assignees[..i], key, listed) == Ok(found)
    {
      assert assignees[..i + 1][..i] == assignees[..i];
      var a := AsDict(assignees[i]);
      if a.Err? {
        AssigneeMatchPrefixError(assignees, key, listed, i + 1);
        return Err(a.error);
      }
      if key in a.value {
        var hit := In(a.value[key], listed);
        if hit.Err? {
          AssigneeMatchPrefixError(assignees, key, listed, i + 1);
          return Err(hit.error);
        }
        found := found || hit.value;
      }
    }
    assert assignees[..|assignees|] == assignees;
    return Ok(found);
  }

  lemma {:induction false} AssigneeMatchPrefixError(assignees: seq<Json>, key: string, listed: Json, n: nat)
    requires n <= |assignees| && AssigneeMatch(assignees[..n], key, listed).Err?
    ensures AssigneeMatch(assignees, key, listed) == AssigneeMatch(assignees[..n], key, listed)
    decreases |assignees| - n
  {
    if n < |assignees| {
      assert assignees[..n + 1][..n] == assignees[..n];
      AssigneeMatchPrefixError(assignees, key, listed, n + 1);
    } else {
      assert assignees[..n] == assignees;
    }
  }

  /** One `key, value` item of a task in the candidate phase. */
  method MatchItem(args: Object, key: string, value: Json) returns (r: Result<bool>)
    ensures r == KeyMatch(args, key, value)
  {
    if !Unsearched(key) {
      var arg := SearchArgOf(key);
      if arg.Err? {
        return Err(arg.error);
      }
      var listed := Get(args, arg.value, JNull);
      if Truthy(listed) {
        r := In(value, listed);
      } else {
        r := Ok(false);
      }
    } else if key == "assignees" && "advSecGuids" in args {
      var assignees := Iterate(value);
      if assignees.Err? {
        return Err(assignees.error);
      }
      r := MatchAssignees(assignees.value, "advSecGuid", args["advSecGuids"]);
    } else if key == "assignees" && "ueids" in args {
      var assignees := Iterate(value);
      if assignees.Err? {
        return Err(assignees.error);
      }
      r := MatchAssignees(assignees.value, "ueid", args["ueids"]);
    } else {
      r := Ok(false);
    }
  }

  /** The loop over one task's items in the candidate phase. */
  method MatchTask(args: Object, t: Task) returns (r: Result<bool>)
    ensures Combines(MatchFlags(args, t), r)
  {
    ghost var flags := MatchFlags(args, t);
    var todo := t.Keys;
    var hit := false;
    while todo != {}
      invariant todo <= t.Keys
      invariant forall k | k in t.Keys - todo :: flags[k].Ok?
      invariant hit <==> exists k | k in t.Keys - todo :: flags[k] == Ok(true)
      decreases |todo|
    {
      var k :| k in todo;
      var m := MatchItem(args, k, t[k]);
      assert flags[k] == m;
      if m.Err? {
        return Err(m.error);
      }
      hit := hit || m.value;
      todo := todo - {k};
    }
    assert t.Keys - todo == t.Keys == flags.Keys;
    return Ok(hit);
  }

  /** The candidate phase: every task some search argument hits, once. */
  method CollectCandidates(args: Object, tasks: seq<Task>) returns (r: Result<seq<Task>>)
    ensures AllMatchOk(args, tasks) ==> r == Ok(Candidates(args, tasks))
    ensures !AllMatchOk(args, tasks) ==> r.Err? && CandidateFailure(args, tasks, r.error)
  {
    var found: seq<Task> := [];
    for i := 0 to |tasks|
      invariant forall j | 0 <= j < i :: MatchOk(args, tasks[j])
      invariant found == Candidates(args, tasks[..i])
    {
      assert tasks[..i + 1][..i] == tasks[..i];
      var m := MatchTask(args, tasks[i]);
      if m.Err? {
        assert !AllMatchOk(args, tasks) && CandidateFailure(args, tasks, m.error) by {
          assert FailsWith(MatchFlags(args, tasks[i]), m.error);
        }
        return Err(m.error);
      }
      if m.value && tasks[i] !in found {
        found := found + [tasks[i]];
      }
    }
    assert tasks[..|tasks|] == tasks;
    return Ok(found);
  }

  // ---------------------------------------------------------------------
  // Removal phase
  // ---------------------------------------------------------------------

  /** `set(collected) & set(svalue)` is not empty: both must be made of
      hashable values. */
  function Intersects(collected: seq<Json>, svalue: Json): Result<bool> {
    if exists x | x in collected :: !Hashable(x) then Err(TypeError)
    else
      var items :- Iterate(svalue);
      if exists x | x in items :: !Hashable(x) then Err(TypeError)
      else Ok(exists x | x in collected :: x in items)
  }

  /** One assignee of the removal phase: its value under `key` is collected
      when it is truthy, in `svalue` and not collected yet. */
  function CollectStep(collected: seq<Json>, assignee: Json, key: string, svalue: Json): Result<seq<Json>> {
    var v :- Subscript(assignee, key);
    if !Truthy(v) then Ok(collected)
    else
      var listed :- In(v, svalue);
      Ok(if listed && v !in collected then collected + [v] else collected)
  }

  /** The values under `key` of the assignees, as the `advSecGuids` rule
      collects them. */
  function Collected(assignees: seq<Json>, key: string, svalue: Json): Result<seq<Json>>
    decreases |assignees|
  {
    if assignees == [] then Ok([])
    else
      var before :- Collected(assignees[..|assignees| - 1], key, svalue);
      CollectStep(before, assignees[|assignees| - 1], key, svalue)
  }

  /** The `ueids` rule: the intersection is tested inside the assignee
      loop, after each assignee, and an empty one drops the task. */
  function UeidScan(assignees: seq<Json>, svalue: Json): Result<(seq<Json>, bool)>
    decreases |assignees|
  {
    if assignees == [] then Ok(([], false))
    else
      var before :- UeidScan(assignees[..|assignees| - 1], svalue);
      var collected :- CollectStep(before.0, assignees[|assignees| - 1], "ueid", svalue);
      var common :- Intersects(collected, svalue);
      Ok((collected, before.1 || !common))
  }

  /** The verdict of one search argument on one candidate: whether it drops
      the task. */
  function DropBy(skey: string, svalue: Json, t: Task): Result<bool> {
    if skey == "advSecGuids" then
      var assignees :- Subscript(JObj(t), "assignees");
      var items :- Iterate(assignees);
      var guids :- Collected(items, "advSecGuid", svalue);
      if guids == [] then Ok(true)
      else
        var common :- Intersects(guids, svalue);
        Ok(!common)
    else if skey == "ueids" then
      var assignees :- Subscript(JObj(t), "assignees");
      var items :- Iterate(assignees);
      var scan :- UeidScan(items, svalue);
      Ok(scan.1)
    else
      var field :- FieldOf(skey);
      var v :- Subscript(JObj(t), field);
      var listed :- In(v, svalue);
      Ok(!listed)
  }

  function DropFlags(rest: Object, t: Task): Flags {
    map k | k in rest :: DropBy(k, rest[k], t)
  }

  predicate DropOk(rest: Object, t: Task) {
    FlagsOk(DropFlags(rest, t))
  }

  predicate Dropped(rest: Object, t: Task) {
    AnyTrue(DropFlags(rest, t))
  }

  predicate AllDropOk(rest: Object, cands: seq<Task>) {
    forall i | 0 <= i < |cands| :: DropOk(rest, cands[i])
  }

  predicate RemovalFailure(rest: Object, cands: seq<Task>, e: Error) {
    exists i | 0 <= i < |cands| ::
      (forall j | 0 <= j < i :: DropOk(rest, cands[j])) && FailsWith(DropFlags(rest, cands[i]), e)
  }

  function Survivors(rest: Object, cands: seq<Task>): seq<Task> {
    Pick(cands, t => !Dropped(rest, t))
  }

  /** The assignee loop of the `advSecGuids` rule. */
  method CollectAssignees(assignees: seq<Json>, key: string, svalue: Json) returns (r: Result<seq<Json>>)
    ensures r == Collected(assignees, key, svalue)
  {
    var collected: seq<Json> := [];
    for i := 0 to |assignees|
      invariant Collected(assignees[..i], key, svalue) == Ok(collected)
    {
      assert assignees[..i + 1][..i] == assignees[..i];
      var step := CollectStep(collected, assignees[i], key, svalue);
      if step.Err? {
        CollectedPrefixError(assignees, key, svalue, i + 1);
        return step;
      }
      collected := step.value;
    }
    assert assignees[..|assignees|] == assignees;
    return Ok(collected);
  }

  lemma {:induction false} CollectedPrefixError(assignees: seq<Json>, key: string, svalue: Json, n: nat)
    requires n <= |assignees| && Collected(assignees[..n], key, svalue).Err?
    ensures Collected(assignees, key, svalue) == Collected(assignees[..n], key, svalue)
    decreases |assignees| - n
  {
    if n < |assignees| {
      assert assignees[..n + 1][..n] == assignees[..n];
      CollectedPrefixError(assignees, key, svalue, n + 1);
    } else {
      assert assignees[..n] == assignees;
    }
  }

  /** The assignee loop of the `ueids` rule. */
  method ScanUeids(assignees: seq<Json>, svalue: Json) returns (r: Result<(seq<Json>, bool)>)
    ensures r == UeidScan(assignees, svalue)
  {
    var collected: seq<Json> := [];
    var drop := false;
    for i := 0 to |assignees|
      invariant UeidScan(assignees[..i], svalue) == Ok((collected, drop))
    {
      assert assignees[..i + 1][..i] == assignees[..i];
      var step := CollectStep(collected, assignees[i], "ueid", svalue);
      if step.Err? {
        UeidScanPrefixError(assignees, svalue, i + 1);
        return Err(step.error);
      }
      collected := step.value;
      var common := Intersects(collected, svalue);
      if common.Err? {
        UeidScanPrefixError(assignees, svalue, i + 1);
        return Err(common.error);
      }
      if !common.value {
        drop := true;
      }
    }
    assert assignees[..|assignees|] == assignees;
    return Ok((collected, drop));
  }

  lemma {:induction false} UeidScanPrefixError(assignees: seq<Json>, svalue: Json, n: nat)
    requires n <= |assignees| && UeidScan(assignees[..n], svalue).Err?
    ensures UeidScan(assignees, svalue) == UeidScan(assignees[..n], svalue)
    decreases |assignees| - n
  {
    if n < |assignees| {
      assert assignees[..n + 1][..n] == assignees[..n];
      UeidScanPrefixError(assignees, svalue, n + 1);
    } else {
      assert assignees[..n] == assignees;
    }
  }

  /** One `skey, svalue` item of the search arguments applied to one
      candidate. */
  method DropItem(skey: string, svalue: Json, t: Task) returns (r: Result<bool>)
    ensures r == DropBy(skey, svalue, t)
  {
    if skey == "advSecGuids" || skey == "ueids" {
      var assignees := Subscript(JObj(t), "assignees");
      if assignees.Err? {
        return Err(assignees.error);
      }
      var items := Iterate(assignees.value);
      if items.Err? {
        return Err(items.error);
      }
      if skey == "advSecGuids" {
        var guids := CollectAssignees(items.value, "advSecGuid", svalue);
        if guids.Err? {
          return Err(guids.error);
        }
        if guids.value == [] {
          return Ok(true);
        }
        var common := Intersects(guids.value, svalue);
        if common.Err? {
          return Err(common.error);
        }
        return Ok(!common.value);
      } else {
        var scan := ScanUeids(items.value, svalue);
        if scan.Err? {
          return Err(scan.error);
        }
        return Ok(scan.value.1);
      }
    }
    var field := FieldOf(skey);
    if field.Err? {
      return Err(field.error);
    }
    var v := Subscript(JObj(t), field.value);
    if v.Err? {
      return Err(v.error);
    }
    var listed := In(v.value, svalue);
    if listed.Err? {
      return Err(listed.error);
    }
    return Ok(!listed.value);
  }

  /** The loop over the search arguments for one candidate. */
  method DropTask(rest: Object, t: Task) returns (r: Result<bool>)
    ensures Combines(DropFlags(rest, t), r)
  {
    ghost var flags := DropFlags(rest, t);
    var todo := rest.Keys;
    var drop := false;
    while todo != {}
      invariant todo <= rest.Keys
      invariant forall k | k in rest.Keys - todo :: flags[k].Ok?
      invariant drop <==> exists k | k in rest.Keys - todo :: flags[k] == Ok(true)
      decreases |todo|
    {
      var k :| k in todo;
      var d := DropItem(k, rest[k], t);
      assert flags[k] == d;
      if d.Err? {
        return Err(d.error);
      }
      drop := drop || d.value;
      todo := todo - {k};
    }
    assert rest.Keys - todo == rest.Keys == flags.Keys;
    return Ok(drop);
  }

  /** `lst.remove(x)`: the first element equal to `x` is taken out. */
  function RemoveFirst(s: seq<Task>, x: Task): seq<Task>
    decreases |s|
  {
    if s == [] then []
    else if s[0] == x then s[1..]
    else [s[0]] + RemoveFirst(s[1..], x)
  }

  lemma {:induction false} RemoveFirstAfter(before: seq<Task>, x: Task, after: seq<Task>)
    requires x !in before
    ensures RemoveFirst(before + [x] + after, x) == before + after
    decreases |before|
  {
    var t := before + [x] + after;
    if before == [] {
      assert t == [x] + after;
      assert t[1..] == after;
    } else {
      assert before[0] in before;
      assert t[0] == before[0] != x;
      assert t[1..] == before[1..] + [x] + after;
      RemoveFirstAfter(before[1..], x, after);
      assert RemoveFirst(t, x) == [before[0]] + (before[1..] + after);
      ConcatAssoc([before[0]], before[1..], after);
      assert [before[0]] + before[1..] == before;
    }
  }

  /** One candidate of the removal loop: removing it when it is ruled out
      keeps `new_list` equal to the survivors so far followed by the
      candidates still to come. */
  lemma SurvivorsStep(rest: Object, cands: seq<Task>, i: nat)
    requires Distinct(cands) && i < |cands|
    ensures cands[i] in Survivors(rest, cands[..i]) + cands[i..]
    ensures Dropped(rest, cands[i]) ==>
      RemoveFirst(Survivors(rest, cands[..i]) + cands[i..], cands[i]) == Survivors(rest, cands[..i + 1]) + cands[i + 1..]
    ensures !Dropped(rest, cands[i]) ==>
      Survivors(rest, cands[..i]) + cands[i..] == Survivors(rest, cands[..i + 1]) + cands[i + 1..]
  {
    assert cands[..i + 1][..i] == cands[..i];
    var c := cands[i];
    var kept := Survivors(rest, cands[..i]);
    assert c !in kept by {
      PickMembers(cands[..i], t => !Dropped(rest, t), c);
      assert forall j | 0 <= j < i :: cands[j] != c;
    }
    assert cands[i..] == [c] + cands[i + 1..];
    assert kept + cands[i..] == kept + [c] + cands[i + 1..];
    if Dropped(rest, c) {
      RemoveFirstAfter(kept, c, cands[i + 1..]);
    }
  }

  /** The state of the removal loop after `i` candidates: each of them was
      checked without error, and `new_list` holds the survivors among them
      followed by the candidates still to come. */
  predicate RemovedSoFar(rest: Object, cands: seq<Task>, i: nat, newList: seq<Task>)
    requires i <= |cands|
  {
    AllDropOk(rest, cands[..i]) && newList == Survivors(rest, cands[..i]) + cands[i..]
  }

  /** The first candidate whose removal check fails decides the error. */
  lemma RemovalFailureAt(rest: Object, cands: seq<Task>, i: nat, e: Error)
    requires i < |cands| && AllDropOk(rest, cands[..i])
    requires FailsWith(DropFlags(rest, cands[i]), e)
    ensures !AllDropOk(rest, cands) && RemovalFailure(rest, cands, e)
  {
    forall j | 0 <= j < i ensures DropOk(rest, cands[j]) {
      assert cands[..i][j] == cands[j];
    }
  }

  /** When every candidate has been checked, `new_list` holds the survivors. */
  lemma RemovalDone(rest: Object, cands: seq<Task>, newList: seq<Task>)
    requires RemovedSoFar(rest, cands, |cands|, newList)
    ensures AllDropOk(rest, cands) && newList == Survivors(rest, cands)
  {
    assert cands[..|cands|] == cands && cands[|cands|..] == [];
    assert newList == Survivors(rest, cands) + [];
  }

  /** One turn of the removal loop: the candidate is checked against every
      search argument and removed from `new_list` when one rules it out. */
  method RemoveCandidateAt(rest: Object, cands: seq<Task>, i: nat, newList: seq<Task>) returns (r: Result<seq<Task>>)
    requires Distinct(cands) && i < |cands|
    requires RemovedSoFar(rest, cands, i, newList)
    ensures r.Ok? ==> RemovedSoFar(rest, cands, i + 1, r.value)
    ensures r.Err? ==> FailsWith(DropFlags(rest, cands[i]), r.error)
  {
    var c := cands[i];
    var d := DropTask(rest, c);
    if d.Err? {
      return Err(d.error);
    }
    SurvivorsStep(rest, cands, i);
    ghost var checked := cands[..i + 1];
    assert AllDropOk(rest, checked) by {
      forall j | 0 <= j < |checked| ensures DropOk(rest, checked[j]) {
        if j < i {
          assert checked[j] == cands[..i][j];
        }
      }
    }
    if d.value && c in newList {
      return Ok(RemoveFirst(newList, c));
    }
    return Ok(newList);
  }

  /** The removal phase: `new_list` starts as a copy of the candidates, and
      each candidate some search argument rules out is removed from it. */
  method RemoveUnmatched(rest: Object, cands: seq<Task>) returns (r: Result<seq<Task>>)
    requires Distinct(cands)
    ensures AllDropOk(rest, cands) ==> r == Ok(Survivors(rest, cands))
    ensures !AllDropOk(rest, cands) ==> r.Err? && RemovalFailure(rest, cands, r.error)
  {
    var newList := cands;
    assert RemovedSoFar(rest, cands, 0, newList) by {
      assert cands[..0] == [] && cands[0..] == cands;
    }
    for i := 0 to |cands|
      invariant RemovedSoFar(rest, cands, i, newList)
    {
      var next := RemoveCandidateAt(rest, cands, i, newList);
      if next.Err? {
        RemovalFailureAt(rest, cands, i, next.error);
        return next;
      }
      newList := next.value;
    }
    RemovalDone(rest, cands, newList);
    return Ok(newList);
  }

  // ---------------------------------------------------------------------
  // The search
  // ---------------------------------------------------------------------

  /** The search arguments, which the search edits in place. */
  class SearchArgs {
    var entries: Object

    constructor (entries: Object)
      ensures this.entries == entries
    {
      this.entries := entries;
    }
  }

  /** A truthy `pageRequest` is taken out of the search arguments. */
  function WithoutPageRequest(args: Object): Object {
    if Truthy(Get(args, "pageRequest", JNull)) then args - {"pageRequest"} else args
  }

  /** Every outcome the search may have on `args` (the arguments after the
      `pageRequest` edit) and `tasks`, whatever the key orders. */
  predicate SearchOutcome(args: Object, tasks: seq<Task>, r: Result<seq<Task>>) {
    if !Truthy(Get(args, "companyid", JNull)) then r == Ok([])
    else if !AllMatchOk(args, tasks) then r.Err? && CandidateFailure(args, tasks, r.error)
    else
      var rest := args - {"companyid"};
      var cands := Candidates(args, tasks);
      if AllDropOk(rest, cands) then r == Ok(Survivors(rest, cands))
      else r.Err? && RemovalFailure(rest, cands, r.error)
  }

  /** `_search_list_of_tasks(search_args, *company_task_list)`. */
  method SearchListOfTasks(searchArgs: SearchArgs, tasks: seq<Task>) returns (r: Result<seq<Task>>)
    modifies searchArgs
    ensures searchArgs.entries == WithoutPageRequest(old(searchArgs.entries))
    ensures SearchOutcome(searchArgs.entries, tasks, r)
  {
    if Truthy(Get(searchArgs.entries, "pageRequest", JNull)) {
      searchArgs.entries := searchArgs.entries - {"pageRequest"};
    }
    var args := searchArgs.entries;
    if !Truthy(Get(args, "companyid", JNull)) {
      return Ok([]);
    }
    var cands := CollectCandidates(args, tasks);
    if cands.Err? {
      return cands;
    }
    PickDistinct(tasks, t => Matches(args, t));
    // Once the first search argument is handled, `list_of_tasks_that_match`
    // is `new_list` itself; the loop goes on over the original candidates
    // and the result is `new_list` in every case.
    r := RemoveUnmatched(args - {"companyid"}, cands.value);
  }

  // ---------------------------------------------------------------------
  // Properties
  // ---------------------------------------------------------------------

  /** Without a truthy `companyid` nothing is searched. */
  lemma NoCompanyNoTasks(args: Object, tasks: seq<Task>, r: Result<seq<Task>>)
    requires !Truthy(Get(args, "companyid", JNull))
    ensures SearchOutcome(args, tasks, r) <==> r == Ok([])
  {
  }

  /** A found list holds input tasks only, each once, in input order: exactly
      those that some argument hits and no argument rules out. */
  lemma SearchResultShape(args: Object, tasks: seq<Task>, r: Result<seq<Task>>)
    requires Truthy(Get(args, "companyid", JNull))
    requires SearchOutcome(args, tasks, r) && r.Ok?
    ensures SubsequenceOf(r.value, tasks)
    ensures Distinct(r.value)
    ensures forall t :: t in r.value <==> t in tasks && Matches(args, t) && !Dropped(args - {"companyid"}, t)
  {
    var rest := args - {"companyid"};
    var matches := t => Matches(args, t);
    var keep := t => !Dropped(rest, t);
    PickTwice(tasks, matches, keep);
    var both := t => matches(t) && keep(t);
    assert r.value == Pick(tasks, both);
    PickSubsequence(tasks, both);
    PickDistinct(tasks, both);
    forall t ensures t in r.value <==> t in tasks && Matches(args, t) && !Dropped(rest, t) {
      PickMembers(tasks, both, t);
    }
  }

  /** A task field outside the searchable ones makes the search fail once
      a company is searched. */
  lemma UnknownFieldFails(args: Object, tasks: seq<Task>, i: nat, key: string, r: Result<seq<Task>>)
    requires Truthy(Get(args, "companyid", JNull))
    requires i < |tasks| && key in tasks[i] && !Unsearched(key) && SearchArgOf(key).Err?
    requires SearchOutcome(args, tasks, r)
    ensures r.Err?
  {
    assert MatchFlags(args, tasks[i])[key] == Err(KeyError(key));
  }

  /** A list of hashable values, the shape search lists have. */
  predicate PlainList(svalue: Json) {
    svalue.JArr? && forall x | x in svalue.items :: Hashable(x)
  }

  /** An assignee whose value under `key` is truthy and listed. */
  predicate Listed(assignee: Json, key: string, svalue: Json)
    requires svalue.JArr?
  {
    assignee.JObj? && key in assignee.fields && Truthy(assignee.fields[key]) && assignee.fields[key] in svalue.items
  }

  predicate Keyed(assignees: seq<Json>, key: string) {
    forall a | a in assignees :: a.JObj? && key in a.fields
  }

  lemma {:induction false} CollectedListed(assignees: seq<Json>, key: string, svalue: Json)
    requires PlainList(svalue) && Keyed(assignees, key)
    ensures Collected(assignees, key, svalue).Ok?
    ensures forall x | x in Collected(assignees, key, svalue).value :: x in svalue.items
    ensures Collected(assignees, key, svalue).value != [] <==> exists a | a in assignees :: Listed(a, key, svalue)
    decreases |assignees|
  {
    if assignees != [] {
      var init := assignees[..|assignees| - 1];
      var last := assignees[|assignees| - 1];
      assert assignees == init + [last];
      CollectedListed(init, key, svalue);
      assert (exists a | a in assignees :: Listed(a, key, svalue))
             <==> (exists a | a in init :: Listed(a, key, svalue)) || Listed(last, key, svalue);
    }
  }

  /** With a plain list and dict assignees, `advSecGuids` drops a task
      exactly when no assignee has a truthy listed guid. */
  lemma AdvSecGuidsRule(t: Task, svalue: Json, assignees: seq<Json>)
    requires PlainList(svalue) && "assignees" in t && t["assignees"] == JArr(assignees) && Keyed(assignees, "advSecGuid")
    ensures DropBy("advSecGuids", svalue, t) == Ok(!exists a | a in assignees :: Listed(a, "advSecGuid", svalue))
  {
    CollectedListed(assignees, "advSecGuid", svalue);
    var guids := Collected(assignees, "advSecGuid", svalue).value;
    assert Iterate(JArr(assignees)) == Ok(assignees);
    IntersectsListed(guids, svalue);
  }

  /** Values taken from a plain list share an element with it exactly when
      there is at least one of them. */
  lemma IntersectsListed(collected: seq<Json>, svalue: Json)
    requires PlainList(svalue) && forall x | x in collected :: x in svalue.items
    ensures Intersects(collected, svalue) == Ok(collected != [])
  {
    assert Iterate(svalue) == Ok(svalue.items);
    assert forall x | x in collected :: Hashable(x);
    assert !exists x | x in collected :: !Hashable(x);
    assert !exists x | x in svalue.items :: !Hashable(x);
    if collected != [] {
      assert collected[0] in svalue.items;
      assert exists x | x in collected :: x in svalue.items;
    }
  }

  lemma {:induction false} UeidScanListed(assignees: seq<Json>, svalue: Json)
    requires PlainList(svalue) && Keyed(assignees, "ueid") && assignees != []
    ensures UeidScan(assignees, svalue).Ok?
    ensures forall x | x in UeidScan(assignees, svalue).value.0 :: x in svalue.items
    ensures Listed(assignees[0], "ueid", svalue) ==> UeidScan(assignees, svalue).value.0 != []
    ensures UeidScan(assignees, svalue).value.1 <==> !Listed(assignees[0], "ueid", svalue)
    decreases |assignees|
  {
    var init := assignees[..|assignees| - 1];
    var last := assignees[|assignees| - 1];
    assert last in assignees;
    var before: (seq<Json>, bool);
    if init != [] {
      assert init[0] == assignees[0];
      assert Keyed(init, "ueid") by {
        forall a | a in init ensures a in assignees { }
      }
      UeidScanListed(init, svalue);
      before := UeidScan(init, svalue).value;
    } else {
      assert last == assignees[0];
      before := ([], false);
    }
    assert UeidScan(init, svalue) == Ok(before);
    var v := last.fields["ueid"];
    assert Subscript(last, "ueid") == Ok(v);
    var step := CollectStep(before.0, last, "ueid", svalue);
    assert step.Ok?;
    var collected := step.value;
    assert forall x | x in collected :: x in svalue.items;
    assert forall x | x in before.0 :: x in collected;
    assert Listed(last, "ueid", svalue) ==> collected != [];
    assert forall x | x in collected :: Hashable(x);
    assert Iterate(svalue) == Ok(svalue.items);
    var common := Intersects(collected, svalue);
    assert common == Ok(collected != []) by {
      if collected != [] {
        assert collected[0] in svalue.items;
      }
    }
    assert UeidScan(assignees, svalue) == Ok((collected, before.1 || collected == []));
  }

  /** The `ueids` rule tests the intersection after every assignee, so with
      a plain list and dict assignees a task is dropped exactly when its
      FIRST assignee's ueid is empty or unlisted, whatever the others hold;
      a task without assignees is never dropped by it. */
  lemma UeidsFirstAssigneeRule(t: Task, svalue: Json, assignees: seq<Json>)
    requires PlainList(svalue) && "assignees" in t && t["assignees"] == JArr(assignees) && Keyed(assignees, "ueid")
    ensures assignees == [] ==> DropBy("ueids", svalue, t) == Ok(false)
    ensures assignees != [] ==> DropBy("ueids", svalue, t) == Ok(!Listed(assignees[0], "ueid", svalue))
  {
    if assignees != [] {
      UeidScanListed(assignees, svalue);
    }
  }

  /** A plain search argument drops the candidates whose field is not in
      its list. */
  lemma FieldRule(skey: string, field: string, svalue: Json, t: Task)
    requires FieldOf(skey) == Ok(field) && skey != "advSecGuids" && skey != "ueids"
    requires svalue.JArr? && field in t
    ensures DropBy(skey, svalue, t) == Ok(t[field] !in svalue.items)
  {
  }
}
