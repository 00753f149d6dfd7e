/** Environment variables: the command line's parser, and what `docker run` is given. */
module Environment {
  import opened HostRouting
  import opened Options

  type Env = map<string, string>

  /**
   One `KEY=VALUE` argument: split at its first '='; without one it is ignored; with an empty key it is an error.
   */
  function AddVar(env: Env, v: string): Option<Env> {
    var i := Index(v, '=');
    if i == -1 then Some(env)
    else if i == 0 then None
    else Some(env[v[..i] := v[i + 1..]])
  }

  /** All arguments in order, so that the last one for a key wins. */
  function ParseVars(vars: seq<string>): Option<Env> {
    if vars == [] then Some(map[])
    else
      var before := ParseVars(vars[..|vars| - 1]);
      if before.None? then None else AddVar(before.value, vars[|vars| - 1])
  }

  /** `parseEnvVars` of cmd/peerctl/deploy.go. */
  method ParseEnvVars(vars: seq<string>) returns (result: Option<Env>)
    ensures result == ParseVars(vars)
  {
    var env: Env := map[];
    var n := 0;
    while n < |vars|
      invariant 0 <= n <= |vars| && ParseVars(vars[..n]) == Some(env)
    {
      var v := vars[n];
      ghost var before := env;
      assert vars[..n + 1][..n] == vars[..n];
      var i := 0;
      while i < |v|
        invariant 0 <= i <= |v| && '=' !in v[..i] && env == before
      {
        if v[i] == '=' {
          IndexUnique(v, '=', i);
          var key, value := v[..i], v[i + 1..];
          if key == "" {
            FailureStays(vars, n + 1);
            return None;
          }
          env := env[key := value];
          break;
        }
        i := i + 1;
      }
      if i == |v| {
        assert v[..|v|] == v;
        IndexAbsent(v, '=');
      }
      n := n + 1;
    }
    assert vars[..|vars|] == vars;
    return Some(env);
  }

  lemma {:induction false} FailureStays(vars: seq<string>, n: nat)
    requires n <= |vars| && ParseVars(vars[..n]).None?
    ensures ParseVars(vars).None?
    decreases |vars|
  {
    if n < |vars| {
      assert vars[..|vars| - 1][..n] == vars[..n];
      FailureStays(vars[..|vars| - 1], n);
    } else {
      assert vars[..n] == vars;
    }
  }

  /**
   Parsing fails exactly when some argument's first '=' is its first character; a map it returns has no empty key
   and no key with '='.
   */
  lemma {:induction false} ParseFailsIff(vars: seq<string>)
    ensures ParseVars(vars).None? <==> exists v :: v in vars && Index(v, '=') == 0
    ensures ParseVars(vars).Some? ==> forall k :: k in ParseVars(vars).value ==> k != "" && '=' !in k
    decreases |vars|
  {
    if vars != [] {
      var init, last := vars[..|vars| - 1], vars[|vars| - 1];
      ParseFailsIff(init);
      assert vars == init + [last];
      assert forall v :: v in vars <==> v in init || v == last;
      assert ParseVars(vars).None? <==> ParseVars(init).None? || Index(last, '=') == 0;
    }
  }

  /** The argument `v` sets `key` to `value`. */
  predicate Sets(v: string, key: string, value: string) { v == key + "=" + value && '=' !in key }

  predicate SetsKey(v: string, key: string) { Index(v, '=') != -1 && v[..Index(v, '=')] == key }

  lemma SetsKeyIff(v: string, key: string)
    ensures SetsKey(v, key) <==> Sets(v, key, if |key| + 1 <= |v| then v[|key| + 1..] else "")
    ensures forall value :: Sets(v, key, value) ==> SetsKey(v, key) && value == v[|key| + 1..]
  {
    if SetsKey(v, key) {
      assert v == key + "=" + v[|key| + 1..];
    }
    forall value | Sets(v, key, value)
      ensures SetsKey(v, key) && value == v[|key| + 1..]
    {
      assert v[..|key|] == key && v[|key|] == '=';
      IndexUnique(v, '=', |key|);
    }
  }

  /** Argument `i` sets `key` to `value`, and no later one sets it again. */
  predicate SetsAt(vars: seq<string>, key: string, value: string, i: nat) {
    i < |vars| && Sets(vars[i], key, value) && forall j :: i < j < |vars| ==> !SetsKey(vars[j], key)
  }

  ghost predicate SetLast(vars: seq<string>, key: string, value: string) { exists i :: SetsAt(vars, key, value, i) }

  /**
   What parsing gives: a name has a value exactly if some argument sets it so and no later one sets it again. Arguments
   without '=' are ignored.
   */
  lemma {:induction false} ParsedMeans(vars: seq<string>, key: string, value: string)
    requires ParseVars(vars).Some?
    ensures key in ParseVars(vars).value && ParseVars(vars).value[key] == value <==> SetLast(vars, key, value)
    decreases |vars|
  {
    if vars == [] {
      assert forall i: nat :: !SetsAt([], key, value, i);
    } else {
      var init, last := vars[..|vars| - 1], vars[|vars| - 1];
      ParsedMeans(init, key, value);
      AddVarMeans(ParseVars(init).value, last, key, value);
      LastSets(init, last, key, value);
      assert vars == init + [last];
    }
  }

  lemma AddVarMeans(env: Env, v: string, key: string, value: string)
    requires AddVar(env, v).Some?
    ensures var after := AddVar(env, v).value;
            key in after && after[key] == value <==>
            if SetsKey(v, key) then Sets(v, key, value) else key in env && env[key] == value
  {
    SetsKeyIff(v, key);
  }

  lemma LastSets(init: seq<string>, last: string, key: string, value: string)
    ensures SetLast(init + [last], key, value) <==>
            if SetsKey(last, key) then Sets(last, key, value) else SetLast(init, key, value)
  {
    var vars := init + [last];
    SetsKeyIff(last, key);
    if Sets(last, key, value) {
      assert SetsAt(vars, key, value, |init|);
    }
    if !SetsKey(last, key) {
      if i: nat :| SetsAt(init, key, value, i) {
        assert forall j :: i < j < |init| ==> vars[j] == init[j];
        assert SetsAt(vars, key, value, i);
      }
    }
    if i: nat :| SetsAt(vars, key, value, i) {
      EarlierOfSet(init, last, key, value, i);
    }
  }

  lemma EarlierOfSet(init: seq<string>, last: string, key: string, value: string, i: nat)
    requires SetsAt(init + [last], key, value, i)
    ensures if i == |init| then Sets(last, key, value) else SetsAt(init, key, value, i) && !SetsKey(last, key)
  {
    var vars := init + [last];
    assert vars[|init|] == last && forall j :: 0 <= j < |init| ==> vars[j] == init[j];
  }

  /**
   `strings.ToUpper`, as far as it matters for names in A-Z and '_': besides a-z, the dotless i and the long s are
   the only other characters whose upper case is in A-Z.
   */
  function Upper(c: char): char {
    if 'a' <= c <= 'z' then c - 'a' + 'A'
    else if c == '\U{131}' then 'I'
    else if c == '\U{17F}' then 'S'
    else c
  }

  function UpperName(name: string): string { seq(|name|, i requires 0 <= i < |name| => Upper(name[i])) }

  const BLOCKED: seq<string> := ["LD_PRELOAD", "LD_LIBRARY_PATH", "DOCKER_HOST"]

  predicate Accepted(name: string) { name != "" && UpperName(name) !in BLOCKED }

  /** `c` is the letter, digit or underscore `u`, in either case. */
  predicate SameLetter(c: char, u: char) {
    || c == u
    || ('A' <= u <= 'Z' && 'a' <= c <= 'z' && c - 'a' == u - 'A')
    || (u == 'I' && c == '\U{131}')
    || (u == 'S' && c == '\U{17F}')
  }

  predicate SameName(name: string, blocked: string) {
    |name| == |blocked| && forall i :: 0 <= i < |name| ==> SameLetter(name[i], blocked[i])
  }

  lemma UpperNameIs(name: string, blocked: string)
    requires forall i :: 0 <= i < |blocked| ==> 'A' <= blocked[i] <= 'Z' || blocked[i] == '_'
    ensures UpperName(name) == blocked <==> SameName(name, blocked)
  {
    if SameName(name, blocked) {
      assert forall i :: 0 <= i < |name| ==> Upper(name[i]) == blocked[i];
    }
    if UpperName(name) == blocked {
      forall i | 0 <= i < |name|
        ensures SameLetter(name[i], blocked[i])
      {
        assert UpperName(name)[i] == Upper(name[i]) == blocked[i];
      }
    }
  }

  /** Which names are refused: the empty one, and three, in whatever case their letters are. */
  lemma AcceptedIff(name: string)
    ensures Accepted(name) <==>
            && name != "" && !SameName(name, "LD_PRELOAD") && !SameName(name, "LD_LIBRARY_PATH")
            && !SameName(name, "DOCKER_HOST")
  {
    UpperNameIs(name, "LD_PRELOAD");
    UpperNameIs(name, "LD_LIBRARY_PATH");
    UpperNameIs(name, "DOCKER_HOST");
  }

  /** `isValidEnvVar` of internal/runtime/docker.go. */
  method IsValidEnvVar(name: string) returns (valid: bool)
    ensures valid == Accepted(name)
  {
    if |name| == 0 {
      return false;
    }
    var upperName := UpperName(name);
    var i := 0;
    while i < |BLOCKED|
      invariant 0 <= i <= |BLOCKED| && upperName !in BLOCKED[..i]
    {
      if upperName == BLOCKED[i] {
        return false;
      }
      i := i + 1;
    }
    assert BLOCKED[..|BLOCKED|] == BLOCKED;
    return true;
  }

  /** `order` lists the keys of the map, each once: an order in which the map can be ranged over. */
  ghost predicate Orders(order: seq<string>, env: Env) { OrdersSet(order, env.Keys) }

  /** `order` lists the keys in `done`, each once. */
  ghost predicate OrdersSet(order: seq<string>, done: set<string>) {
    && (forall k :: k in order <==> k in done)
    && (forall i, j :: 0 <= i < j < |order| ==> order[i] != order[j])
  }

  function Entry(env: Env, k: string): seq<string>
    requires k in env
  {
    if Accepted(k) then [k + "=" + env[k]] else []
  }

  /** The values that follow `-e`, for the keys of `order`. */
  function Printed(env: Env, order: seq<string>): seq<string>
    requires forall k :: k in order ==> k in env
  {
    if order == [] then []
    else
      Printed(env, order[..|order| - 1]) + Entry(env, order[|order| - 1])
  }

  /** Each value preceded by `-e`. */
  function Flagged(values: seq<string>): seq<string> {
    if values == [] then [] else Flagged(values[..|values| - 1]) + ["-e", values[|values| - 1]]
  }

  lemma FlaggedSnoc(values: seq<string>, v: string)
    ensures Flagged(values + [v]) == Flagged(values) + ["-e", v]
  {
    assert (values + [v])[..|values|] == values;
  }

  /** Each value is preceded by `-e`. */
  lemma {:induction false} FlaggedMeans(values: seq<string>)
    ensures |Flagged(values)| == 2 * |values|
    ensures forall i :: 0 <= i < |values| ==> Flagged(values)[2 * i] == "-e" && Flagged(values)[2 * i + 1] == values[i]
    decreases |values|
  {
    if values != [] {
      var init := values[..|values| - 1];
      FlaggedMeans(init);
      assert Flagged(values) == Flagged(init) + ["-e", values[|values| - 1]];
    }
  }

  /** Each accepted variable is printed once. */
  lemma {:induction false} PrintedOnce(env: Env, order: seq<string>, done: set<string>)
    requires OrdersSet(order, done) && done <= env.Keys
    ensures |Printed(env, order)| == |set k | k in done && Accepted(k)|
    ensures forall k :: k in done && Accepted(k) ==> k + "=" + env[k] in Printed(env, order)
    decreases |order|
  {
    if order == [] {
      assert (set k | k in done && Accepted(k)) == {};
    } else {
      var init, last := order[..|order| - 1], order[|order| - 1];
      assert order == init + [last];
      assert last !in init && forall k :: k in order <==> k in init || k == last;
      assert OrdersSet(init, done - {last});
      PrintedOnce(env, init, done - {last});
      AcceptedWithout(done, last);
    }
  }

  lemma AcceptedWithout(done: set<string>, last: string)
    requires last in done
    ensures var (now, before) := (set k | k in done && Accepted(k), set k | k in done - {last} && Accepted(k));
            now == (if Accepted(last) then before + {last} else before) && last !in before
  {}

  /** One more key adds its two arguments, if it is accepted. */
  lemma FlaggedPrintedSnoc(env: Env, order: seq<string>, k: string)
    requires (forall q :: q in order ==> q in env) && k in env
    ensures forall q :: q in order + [k] ==> q in env
    ensures Flagged(Printed(env, order + [k])) ==
            Flagged(Printed(env, order)) + if Accepted(k) then ["-e", k + "=" + env[k]] else []
  {
    assert (order + [k])[..|order|] == order;
    if Accepted(k) {
      FlaggedSnoc(Printed(env, order), k + "=" + env[k]);
    } else {
      assert Printed(env, order) + [] == Printed(env, order);
    }
  }

  /** `args` is what is passed on for the keys in `done`, in some order. */
  ghost predicate ArgsFor(env: Env, done: set<string>, args: seq<string>)
    requires done <= env.Keys
  {
    exists order :: OrdersSet(order, done) && args == Flagged(Printed(env, order))
  }

  lemma NoArgs(env: Env)
    ensures ArgsFor(env, {}, [])
  {
    assert OrdersSet([], {}) && Flagged(Printed(env, [])) == [];
  }

  lemma MoreArgs(env: Env, done: set<string>, args: seq<string>, k: string)
    requires done <= env.Keys && ArgsFor(env, done, args) && k in env && k !in done
    ensures ArgsFor(env, done + {k}, args + if Accepted(k) then ["-e", k + "=" + env[k]] else [])
  {
    var order :| OrdersSet(order, done) && args == Flagged(Printed(env, order));
    FlaggedPrintedSnoc(env, order, k);
    assert OrdersSet(order + [k], done + {k});
  }

  lemma AllArgs(env: Env, args: seq<string>)
    requires ArgsFor(env, env.Keys, args)
    ensures exists order :: Orders(order, env) && args == Flagged(Printed(env, order))
  {
    var order: seq<string> :| OrdersSet(order, env.Keys) && args == Flagged(Printed(env, order));
    assert Orders(order, env);
  }

  /** The loop of `Run` that passes the environment on, in whatever order the map yields its keys. */
  method EnvArgs(env: Env) returns (args: seq<string>)
    ensures exists order :: Orders(order, env) && args == Flagged(Printed(env, order))
  {
    args := [];
    ghost var done: set<string> := {};
    var rest := env.Keys;
    NoArgs(env);
    while rest != {}
      invariant rest <= env.Keys && done == env.Keys - rest && ArgsFor(env, done, args)
    {
      var k :| k in rest;
      MoreArgs(env, done, args, k);
      var valid := IsValidEnvVar(k);
      if valid {
        args := args + ["-e", k + "=" + env[k]];
      } else {
        assert args + [] == args;
      }
      done := done + {k};
      rest := rest - {k};
    }
    AllArgs(env, args);
  }

  function Passed(env: Env): Env { map k | k in env && Accepted(k) :: env[k] }

  /** Parsing one more entry adds it, if its key is accepted and has no '='. */
  lemma EntryParses(env: Env, values: seq<string>, k: string)
    requires k in env && (Accepted(k) ==> '=' !in k) && ParseVars(values).Some?
    ensures ParseVars(values + Entry(env, k)) ==
            Some(if Accepted(k) then ParseVars(values).value[k := env[k]] else ParseVars(values).value)
  {
    if Accepted(k) {
      var v := k + "=" + env[k];
      assert v[..|k|] == k && v[|k|] == '=' && v[|k| + 1..] == env[k];
      IndexUnique(v, '=', |k|);
      assert (values + [v])[..|values|] == values;
    } else {
      assert values + [] == values;
    }
  }

  lemma {:induction false} PrintedParses(env: Env, order: seq<string>)
    requires forall k :: k in order ==> k in env
    requires forall k :: k in env && Accepted(k) ==> '=' !in k
    ensures ParseVars(Printed(env, order)).Some?
    ensures ParseVars(Printed(env, order)).value == map k | k in order && Accepted(k) :: env[k]
    decreases |order|
  {
    if order != [] {
      var init, k := order[..|order| - 1], order[|order| - 1];
      assert order == init + [k];
      PrintedParses(env, init);
      EntryParses(env, Printed(env, init), k);
      AcceptedOf(env, init, k);
    }
  }

  lemma AcceptedOf(env: Env, init: seq<string>, k: string)
    requires (forall q :: q in init ==> q in env) && k in env
    ensures var before := map q | q in init && Accepted(q) :: env[q];
            (map q | q in init + [k] && Accepted(q) :: env[q]) == if Accepted(k) then before[k := env[k]] else before
  {
    assert forall q :: q in init + [k] <==> q in init || q == k;
  }

  /**
   Printing and parsing again, in any order, gives back exactly the accepted variables if and only if no accepted
   name has an '='. (Names that come out of the parser never have one.)
   */
  lemma EnvRoundTripIff(env: Env, order: seq<string>)
    requires Orders(order, env)
    ensures ParseVars(Printed(env, order)) == Some(Passed(env)) <==> forall k :: k in env && Accepted(k) ==> '=' !in k
  {
    if forall k :: k in env && Accepted(k) ==> '=' !in k {
      PrintedParses(env, order);
      assert (map k | k in order && Accepted(k) :: env[k]) == Passed(env);
    } else {
      ParseFailsIff(Printed(env, order));
      var k :| k in env && Accepted(k) && '=' in k;
      assert k in Passed(env);
    }
  }

  /**
   From the command line to the container: what was parsed is passed on and reads back as it was, but for the
   names refused.
   */
  lemma CommandLineReachesContainer(vars: seq<string>, order: seq<string>)
    requires ParseVars(vars).Some? && Orders(order, ParseVars(vars).value)
    ensures ParseVars(Printed(ParseVars(vars).value, order)) == Some(Passed(ParseVars(vars).value))
  {
    ParseFailsIff(vars);
    EnvRoundTripIff(ParseVars(vars).value, order);
  }
}
