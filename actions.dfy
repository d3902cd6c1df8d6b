/**
 * The side effects of the installation as data, and the `?` chain that runs
 * them: each action is attempted in order and the first failure ends the run.
 * Whether an attempt succeeds is an oracle indexed by the attempt's position.
 * For a `Command::status()?` call a failure means the program could not be
 * started; a non-zero exit status is not a failure.
 */
module Actions {

  datatype Action =
    | WriteFile(path: string, content: string)                  // fs::write
    | Command(program: string, args: seq<string>, pipedStdin: bool) // Command::new(..).args(..).status()?
    | Mkdir(path: string)                                       // fs::create_dir_all
    | Fetch(url: string, path: string)                          // GET the URL and write the body to path
    | Clone(url: string, path: string)                          // git2 Repository::clone
    | CopyDir(src: string, dst: string)                         // copy_dir
    | RemoveDirAll(path: string)                                // fs::remove_dir_all
    | RemoveFile(path: string)                                  // fs::remove_file

  /** The actions attempted, in order, and whether all of them succeeded. */
  datatype Trace = Trace(attempted: seq<Action>, completed: bool)

  /**
   * Runs `plan` from attempt number `at` on: stops at the first action the
   * oracle fails. A completed run attempted the whole plan; a failed one
   * ends with the action that failed.
   */
  function Exec(plan: seq<Action>, succeeds: nat -> bool, at: nat): (t: Trace)
    ensures t.completed ==> t.attempted == plan
    ensures !t.completed ==> |t.attempted| > 0 && !succeeds(at + |t.attempted| - 1)
    decreases |plan|
  {
    if plan == [] then Trace([], true)
    else if !succeeds(at) then Trace([plan[0]], false)
    else
      var rest := Exec(plan[1..], succeeds, at + 1);
      Trace([plan[0]] + rest.attempted, rest.completed)
  }

  /**
   * The attempted actions are a prefix of the plan, every one of them but the
   * last succeeded, and the run completes exactly when every action of the
   * plan succeeds.
   */
  lemma {:induction false} ExecStopsAtFirstFailure(plan: seq<Action>, succeeds: nat -> bool, at: nat)
    ensures var t := Exec(plan, succeeds, at);
      |t.attempted| <= |plan| && t.attempted == plan[..|t.attempted|]
    ensures var t := Exec(plan, succeeds, at);
      forall n :: at <= n < at + |t.attempted| - 1 ==> succeeds(n)
    ensures Exec(plan, succeeds, at).completed <==> forall n :: at <= n < at + |plan| ==> succeeds(n)
    decreases |plan|
  {
    if plan != [] && succeeds(at) {
      ExecStopsAtFirstFailure(plan[1..], succeeds, at + 1);
    }
  }

  /** Sequencing of two traces: the second one only happens if the first completed. */
  function Then(first: Trace, second: Trace): Trace
  {
    if first.completed then Trace(first.attempted + second.attempted, second.completed) else first
  }

  /** Running `p + q` is running `p`, then `q` if `p` completed. */
  lemma {:induction false} ExecAppend(p: seq<Action>, q: seq<Action>, succeeds: nat -> bool, at: nat)
    ensures Exec(p + q, succeeds, at) == Then(Exec(p, succeeds, at), Exec(q, succeeds, at + |p|))
    decreases |p|
  {
    if p == [] {
      assert p + q == q;
    } else {
      assert (p + q)[0] == p[0];
      if succeeds(at) {
        assert (p + q)[1..] == p[1..] + q;
        ExecAppend(p[1..], q, succeeds, at + 1);
        var r, t := Exec(p[1..], succeeds, at + 1), Exec(q, succeeds, at + |p|);
        if r.completed {
          assert ([p[0]] + r.attempted) + t.attempted == [p[0]] + (r.attempted + t.attempted);
        }
      }
    }
  }

  /** An action that occurs in the plan only at index k is attempted only after the k actions before it succeeded. */
  lemma OnlyAfterSuccess(plan: seq<Action>, succeeds: nat -> bool, at: nat, k: nat)
    requires k < |plan| && plan[k] !in plan[..k]
    ensures plan[k] in Exec(plan, succeeds, at).attempted ==>
      forall n :: at <= n < at + k ==> succeeds(n)
  {
    var t := Exec(plan, succeeds, at);
    ExecStopsAtFirstFailure(plan, succeeds, at);
    if plan[k] in t.attempted {
      var i :| 0 <= i < |t.attempted| && t.attempted[i] == plan[k];
      assert plan[i] == plan[k];
    }
  }

  /** Every action of `p` satisfies `f`. */
  ghost predicate AllOf(p: seq<Action>, f: Action -> bool)
  {
    forall x :: x in p ==> f(x)
  }

  // ---------------------------------------------------------------------------
  // Plans made of phases
  // ---------------------------------------------------------------------------

  function Flatten(ps: seq<seq<Action>>): seq<Action>
    decreases |ps|
  {
    if ps == [] then [] else ps[0] + Flatten(ps[1..])
  }

  lemma {:induction false} FlattenAppend(a: seq<seq<Action>>, b: seq<seq<Action>>)
    ensures Flatten(a + b) == Flatten(a) + Flatten(b)
    decreases |a|
  {
    if a == [] {
      assert a + b == b;
    } else {
      assert (a + b)[1..] == a[1..] + b;
      FlattenAppend(a[1..], b);
    }
  }

  /** An action is in a flattened plan iff it is in one of its phases. */
  lemma {:induction false} FlattenMember(ps: seq<seq<Action>>, x: Action)
    ensures x in Flatten(ps) <==> exists j :: 0 <= j < |ps| && x in ps[j]
    decreases |ps|
  {
    if ps != [] {
      FlattenMember(ps[1..], x);
      if x in Flatten(ps[1..]) {
        var j :| 0 <= j < |ps[1..]| && x in ps[1..][j];
        assert x in ps[j + 1];
      }
      if exists j :: 0 <= j < |ps| && x in ps[j] {
        var j :| 0 <= j < |ps| && x in ps[j];
        if j > 0 {
          assert x in ps[1..][j - 1];
        }
      }
    }
  }

  /** A property of every action of every phase holds of every action of the flattened plan. */
  lemma FlattenAll(ps: seq<seq<Action>>, f: Action -> bool)
    requires forall j :: 0 <= j < |ps| ==> AllOf(ps[j], f)
    ensures AllOf(Flatten(ps), f)
  {
    forall x | x in Flatten(ps)
      ensures f(x)
    {
      FlattenMember(ps, x);
    }
  }

  /** Phase j of a plan is followed by the phases after it. */
  lemma FlattenFrom(ps: seq<seq<Action>>, j: nat)
    requires j < |ps|
    ensures Flatten(ps[j..]) == ps[j] + Flatten(ps[j + 1..])
  {
    assert ps[j..][0] == ps[j];
    assert ps[j..][1..] == ps[j + 1..];
  }

  /** A flattened plan splits at any phase boundary. */
  lemma FlattenSplit(ps: seq<seq<Action>>, k: nat)
    requires k <= |ps|
    ensures Flatten(ps) == Flatten(ps[..k]) + Flatten(ps[k..])
  {
    assert ps == ps[..k] + ps[k..];
    FlattenAppend(ps[..k], ps[k..]);
  }

  /** The oracle grants every attempt numbered from `at` to `at + n - 1`. */
  ghost predicate Succeeded(succeeds: nat -> bool, at: nat, n: nat)
  {
    forall i :: at <= i < at + n ==> succeeds(i)
  }

  /** A plan whose every attempt succeeds completes, having attempted all of it. */
  lemma ExecAll(plan: seq<Action>, succeeds: nat -> bool, at: nat)
    requires Succeeded(succeeds, at, |plan|)
    ensures Exec(plan, succeeds, at) == Trace(plan, true)
  {
    ExecStopsAtFirstFailure(plan, succeeds, at);
  }

  /** The first failing attempt, number i of the plan, ends the run right after action i. */
  lemma {:induction false} ExecFailAt(plan: seq<Action>, succeeds: nat -> bool, at: nat, i: nat)
    requires i < |plan| && Succeeded(succeeds, at, i) && !succeeds(at + i)
    ensures Exec(plan, succeeds, at) == Trace(plan[..i + 1], false)
    decreases i
  {
    if i > 0 {
      assert succeeds(at);
      ExecFailAt(plan[1..], succeeds, at + 1, i - 1);
      assert plan[..i + 1] == [plan[0]] + plan[1..][..i];
    }
  }

  /** The phase list is used up. */
  lemma PhasesDone(ps: seq<seq<Action>>)
    ensures Flatten(ps[|ps|..]) == []
  {
    assert ps[|ps|..] == [];
  }

  /** Starting from the first phase is starting from the whole flattened plan. */
  lemma PhasesFrom0(ps: seq<seq<Action>>)
    ensures Flatten(ps[0..]) == Flatten(ps)
  {
    assert ps[0..] == ps;
  }
}
