/**
 Any sequence of calls to the network: the invariants hold after every one of
 them, nothing is ever removed, and the fixed demonstration sequence ends in
 the friend lists stated by `DemoOutcome`.
 */
module History {
  import opened SocialNetworks

  /** One call on the network. */
  datatype Op = AddPersonOp(name: string) | AddFriendshipOp(a: string, b: string)

  function Apply(n: Network, op: Op): Outcome {
    match op
    case AddPersonOp(name) => AddPerson(n, name)
    case AddFriendshipOp(a, b) => AddFriendship(n, a, b)
  }

  /** The network after the calls `ops` in turn, and the diagnostics emitted, in order. */
  datatype Trace = Trace(net: Network, diagnostics: seq<Diagnostic>)

  /** Puts the diagnostic of one call, if any, in front of those of the calls after it. */
  function Emit(d: Option<Diagnostic>, t: Trace): Trace {
    match d
    case None => t
    case Some(notice) => Trace(t.net, [notice] + t.diagnostics)
  }

  function Run(n: Network, ops: seq<Op>): (t: Trace)
    ensures |t.diagnostics| <= |ops|
    decreases |ops|
  {
    if |ops| == 0 then Trace(n, [])
    else
      var step := Apply(n, ops[0]);
      Emit(step.diagnostic, Run(step.net, ops[1..]))
  }

  /** Running two lists of calls one after the other is running their concatenation. */
  lemma {:induction false} RunAppend(n: Network, first: seq<Op>, second: seq<Op>)
    ensures Run(n, first + second).net == Run(Run(n, first).net, second).net
    ensures Run(n, first + second).diagnostics == Run(n, first).diagnostics + Run(Run(n, first).net, second).diagnostics
    decreases |first|
  {
    if |first| == 0 {
      assert first + second == second;
    } else {
      var step := Apply(n, first[0]);
      assert (first + second)[0] == first[0];
      assert (first + second)[1..] == first[1..] + second;
      assert Run(n, first + second) == Emit(step.diagnostic, Run(step.net, first[1..] + second));
      assert Run(n, first) == Emit(step.diagnostic, Run(step.net, first[1..]));
      RunAppend(step.net, first[1..], second);
    }
  }

  /**
   `m` is `n` with things added and nothing removed: people keep their place
   in the order, and every friend list only grows at its end.
   */
  predicate Extends(n: Network, m: Network) {
    && n.order <= m.order
    && n.people.Keys <= m.people.Keys
    && (forall k :: k in n.people ==> m.people[k].name == n.people[k].name)
    && (forall k :: k in n.people ==> n.people[k].friends <= m.people[k].friends)
  }

  lemma ApplyPreservesValid(n: Network, op: Op)
    requires Valid(n)
    ensures Valid(Apply(n, op).net)
  {
    match op
    case AddPersonOp(name) => AddPersonPreservesValid(n, name);
    case AddFriendshipOp(a, b) => AddFriendshipPreservesValid(n, a, b);
  }

  lemma ApplyExtends(n: Network, op: Op)
    ensures Extends(n, Apply(n, op).net)
  {
  }

  lemma ExtendsTransitive(n: Network, m: Network, p: Network)
    requires Extends(n, m) && Extends(m, p)
    ensures Extends(n, p)
  {
  }

  /** Every history that starts from a valid network ends in one. */
  lemma {:induction false} RunPreservesValid(n: Network, ops: seq<Op>)
    requires Valid(n)
    ensures Valid(Run(n, ops).net)
    decreases |ops|
  {
    if |ops| > 0 {
      ApplyPreservesValid(n, ops[0]);
      RunPreservesValid(Apply(n, ops[0]).net, ops[1..]);
    }
  }

  /** Nothing is ever deleted or reordered: a history only adds. */
  lemma {:induction false} RunExtends(n: Network, ops: seq<Op>)
    ensures Extends(n, Run(n, ops).net)
    decreases |ops|
  {
    if |ops| > 0 {
      var m := Apply(n, ops[0]).net;
      ApplyExtends(n, ops[0]);
      RunExtends(m, ops[1..]);
      ExtendsTransitive(n, m, Run(m, ops[1..]).net);
    }
  }

  /** Every network reachable from the empty one is valid. */
  lemma ReachableIsValid(ops: seq<Op>)
    ensures Valid(Run(Empty(), ops).net)
  {
    RunPreservesValid(Empty(), ops);
  }

  /** Three calls in a row, spelled out. */
  lemma RunThree(n: Network, ops: seq<Op>)
    requires |ops| == 3
    ensures var s1 := Apply(n, ops[0]);
            var s2 := Apply(s1.net, ops[1]);
            var s3 := Apply(s2.net, ops[2]);
            Run(n, ops) == Emit(s1.diagnostic, Emit(s2.diagnostic, Emit(s3.diagnostic, Trace(s3.net, []))))
  {
    var s1 := Apply(n, ops[0]);
    var s2 := Apply(s1.net, ops[1]);
    assert Run(n, ops) == Emit(s1.diagnostic, Run(s1.net, ops[1..]));
    assert Run(s1.net, ops[1..]) == Emit(s2.diagnostic, Run(s2.net, ops[2..]));
    assert ops[1..][1..] == ops[2..];
    var s3 := Apply(s2.net, ops[2]);
    assert Run(s2.net, ops[2..]) == Emit(s3.diagnostic, Run(s3.net, ops[2..][1..]));
    assert ops[2..][1..] == [];
  }

  /** Five lists of calls in a row: the network of the last, the diagnostics of all. */
  lemma RunFive(n: Network, a: seq<Op>, b: seq<Op>, c: seq<Op>, d: seq<Op>, e: seq<Op>)
    ensures var t1 := Run(n, a);
            var t2 := Run(t1.net, b);
            var t3 := Run(t2.net, c);
            var t4 := Run(t3.net, d);
            var t5 := Run(t4.net, e);
            Run(n, a + b + c + d + e) ==
              Trace(t5.net, t1.diagnostics + t2.diagnostics + t3.diagnostics + t4.diagnostics + t5.diagnostics)
  {
    RunAppend(n, a, b);
    RunAppend(n, a + b, c);
    RunAppend(n, a + b + c, d);
    RunAppend(n, a + b + c + d, e);
  }

  // ---------------------------------------------------------------------------
  // The demonstration script
  // ---------------------------------------------------------------------------

  const DemoPeople1: seq<Op> := [ AddPersonOp("Alex"), AddPersonOp("Jordan"), AddPersonOp("Morgan") ]

  const DemoPeople2: seq<Op> := [ AddPersonOp("Taylor"), AddPersonOp("Casey"), AddPersonOp("Riley") ]

  const DemoFriendships1: seq<Op> :=
    [ AddFriendshipOp("Alex", "Jordan"), AddFriendshipOp("Alex", "Morgan"),
      AddFriendshipOp("Jordan", "Taylor") ]

  const DemoFriendships2: seq<Op> :=
    [ AddFriendshipOp("Jordan", "Johnny"), AddFriendshipOp("Morgan", "Casey"),
      AddFriendshipOp("Taylor", "Riley") ]

  const DemoFriendships3: seq<Op> :=
    [ AddFriendshipOp("Casey", "Riley"), AddFriendshipOp("Morgan", "Riley"),
      AddFriendshipOp("Alex", "Taylor") ]

  const DemoNames: seq<string> := ["Alex", "Jordan", "Morgan", "Taylor", "Casey", "Riley"]

  /** The people of `n` are exactly the six demonstration names, in that order. */
  predicate HasDemoPeople(n: Network) {
    && n.order == DemoNames
    && n.people.Keys == {"Alex", "Jordan", "Morgan", "Taylor", "Casey", "Riley"}
  }

  /**
   The demonstration people, in order, with the given friend lists for
   Alex, Jordan, Morgan, Taylor, Casey and Riley.
   */
  predicate DemoState(n: Network, alex: seq<string>, jordan: seq<string>, morgan: seq<string>,
                      taylor: seq<string>, casey: seq<string>, riley: seq<string>) {
    && HasDemoPeople(n)
    && HasFriends(n, "Alex", alex) && HasFriends(n, "Jordan", jordan)
    && HasFriends(n, "Morgan", morgan) && HasFriends(n, "Taylor", taylor)
    && HasFriends(n, "Casey", casey) && HasFriends(n, "Riley", riley)
  }

  /** `name` is a person of `n` whose friends are `friends`, in that order. */
  predicate HasFriends(n: Network, name: string, friends: seq<string>) {
    name in n.people && n.people[name].friends == friends
  }

  // The script in five groups of three calls, each group from the state the
  // previous one ends in.

  lemma DemoPeople1Outcome(n: Network)
    requires n.order == [] && n.people == map[]
    ensures Run(n, DemoPeople1).diagnostics == []
    ensures Run(n, DemoPeople1).net.order == ["Alex", "Jordan", "Morgan"]
    ensures Run(n, DemoPeople1).net.people.Keys == {"Alex", "Jordan", "Morgan"}
    ensures forall k :: k in Run(n, DemoPeople1).net.people ==> HasFriends(Run(n, DemoPeople1).net, k, [])
  {
    RunThree(n, DemoPeople1);
  }

  lemma DemoPeople2Outcome(n: Network)
    requires n.order == ["Alex", "Jordan", "Morgan"]
    requires n.people.Keys == {"Alex", "Jordan", "Morgan"}
    requires forall k :: k in n.people ==> HasFriends(n, k, [])
    ensures Run(n, DemoPeople2).diagnostics == []
    ensures DemoState(Run(n, DemoPeople2).net, [], [], [], [], [], [])
  {
    var ops := DemoPeople2;
    var s1 := Apply(n, ops[0]);
    assert s1.diagnostic == None && s1.net.order == ["Alex", "Jordan", "Morgan", "Taylor"];
    assert s1.net.people.Keys == {"Alex", "Jordan", "Morgan", "Taylor"};
    assert forall k :: k in s1.net.people ==> HasFriends(s1.net, k, []);
    var s2 := Apply(s1.net, ops[1]);
    assert s2.diagnostic == None && s2.net.order == ["Alex", "Jordan", "Morgan", "Taylor", "Casey"];
    assert s2.net.people.Keys == {"Alex", "Jordan", "Morgan", "Taylor", "Casey"};
    assert forall k :: k in s2.net.people ==> HasFriends(s2.net, k, []);
    RunThree(n, DemoPeople2);
  }

  // One lemma per successful friendship request of the script: the two lists
  // involved gain each other at their ends, the other four stay as they were.

  lemma BefriendAlexJordan(n: Network)
    requires DemoState(n, [], [], [], [], [], [])
    ensures AddFriendship(n, "Alex", "Jordan").diagnostic == None
    ensures DemoState(AddFriendship(n, "Alex", "Jordan").net, ["Jordan"], ["Alex"], [], [], [], [])
  {
    AddFriendshipAppends(n, "Alex", "Jordan");
  }

  lemma BefriendAlexMorgan(n: Network)
    requires DemoState(n, ["Jordan"], ["Alex"], [], [], [], [])
    ensures AddFriendship(n, "Alex", "Morgan").diagnostic == None
    ensures DemoState(AddFriendship(n, "Alex", "Morgan").net, ["Jordan", "Morgan"], ["Alex"], ["Alex"], [], [], [])
  {
    AddFriendshipAppends(n, "Alex", "Morgan");
  }

  lemma BefriendJordanTaylor(n: Network)
    requires DemoState(n, ["Jordan", "Morgan"], ["Alex"], ["Alex"], [], [], [])
    ensures AddFriendship(n, "Jordan", "Taylor").diagnostic == None
    ensures DemoState(AddFriendship(n, "Jordan", "Taylor").net, ["Jordan", "Morgan"], ["Alex", "Taylor"], ["Alex"], ["Jordan"], [], [])
  {
    AddFriendshipAppends(n, "Jordan", "Taylor");
  }

  lemma BefriendMorganCasey(n: Network)
    requires DemoState(n, ["Jordan", "Morgan"], ["Alex", "Taylor"], ["Alex"], ["Jordan"], [], [])
    ensures AddFriendship(n, "Morgan", "Casey").diagnostic == None
    ensures DemoState(AddFriendship(n, "Morgan", "Casey").net, ["Jordan", "Morgan"], ["Alex", "Taylor"], ["Alex", "Casey"], ["Jordan"], ["Morgan"], [])
  {
    AddFriendshipAppends(n, "Morgan", "Casey");
  }

  lemma BefriendTaylorRiley(n: Network)
    requires DemoState(n, ["Jordan", "Morgan"], ["Alex", "Taylor"], ["Alex", "Casey"], ["Jordan"], ["Morgan"], [])
    ensures AddFriendship(n, "Taylor", "Riley").diagnostic == None
    ensures DemoState(AddFriendship(n, "Taylor", "Riley").net, ["Jordan", "Morgan"], ["Alex", "Taylor"], ["Alex", "Casey"], ["Jordan", "Riley"], ["Morgan"], ["Taylor"])
  {
    AddFriendshipAppends(n, "Taylor", "Riley");
  }

  lemma BefriendCaseyRiley(n: Network)
    requires DemoState(n, ["Jordan", "Morgan"], ["Alex", "Taylor"], ["Alex", "Casey"], ["Jordan", "Riley"], ["Morgan"], ["Taylor"])
    ensures AddFriendship(n, "Casey", "Riley").diagnostic == None
    ensures DemoState(AddFriendship(n, "Casey", "Riley").net, ["Jordan", "Morgan"], ["Alex", "Taylor"], ["Alex", "Casey"], ["Jordan", "Riley"], ["Morgan", "Riley"], ["Taylor", "Casey"])
  {
    AddFriendshipAppends(n, "Casey", "Riley");
  }

  lemma BefriendMorganRiley(n: Network)
    requires DemoState(n, ["Jordan", "Morgan"], ["Alex", "Taylor"], ["Alex", "Casey"], ["Jordan", "Riley"], ["Morgan", "Riley"], ["Taylor", "Casey"])
    ensures AddFriendship(n, "Morgan", "Riley").diagnostic == None
    ensures DemoState(AddFriendship(n, "Morgan", "Riley").net, ["Jordan", "Morgan"], ["Alex", "Taylor"], ["Alex", "Casey", "Riley"], ["Jordan", "Riley"], ["Morgan", "Riley"], ["Taylor", "Casey", "Morgan"])
  {
    AddFriendshipAppends(n, "Morgan", "Riley");
  }

  lemma BefriendAlexTaylor(n: Network)
    requires DemoState(n, ["Jordan", "Morgan"], ["Alex", "Taylor"], ["Alex", "Casey", "Riley"], ["Jordan", "Riley"], ["Morgan", "Riley"], ["Taylor", "Casey", "Morgan"])
    ensures AddFriendship(n, "Alex", "Taylor").diagnostic == None
    ensures DemoState(AddFriendship(n, "Alex", "Taylor").net, ["Jordan", "Morgan", "Taylor"], ["Alex", "Taylor"], ["Alex", "Casey", "Riley"], ["Jordan", "Riley", "Alex"], ["Morgan", "Riley"], ["Taylor", "Casey", "Morgan"])
  {
    AddFriendshipAppends(n, "Alex", "Taylor");
  }

  lemma DemoFriendships1Outcome(n: Network)
    requires DemoState(n, [], [], [], [], [], [])
    ensures Run(n, DemoFriendships1).diagnostics == []
    ensures DemoState(Run(n, DemoFriendships1).net, ["Jordan", "Morgan"], ["Alex", "Taylor"], ["Alex"], ["Jordan"], [], [])
  {
    var ops := DemoFriendships1;
    var s1 := Apply(n, ops[0]);
    BefriendAlexJordan(n);
    var s2 := Apply(s1.net, ops[1]);
    BefriendAlexMorgan(s1.net);
    BefriendJordanTaylor(s2.net);
    RunThree(n, ops);
  }

  lemma DemoFriendships2Outcome(n: Network)
    requires DemoState(n, ["Jordan", "Morgan"], ["Alex", "Taylor"], ["Alex"], ["Jordan"], [], [])
    ensures Run(n, DemoFriendships2).diagnostics == [PersonMissing("Jordan", "Johnny")]
    ensures DemoState(Run(n, DemoFriendships2).net, ["Jordan", "Morgan"], ["Alex", "Taylor"], ["Alex", "Casey"], ["Jordan", "Riley"], ["Morgan"], ["Taylor"])
  {
    var ops := DemoFriendships2;
    var s1 := Apply(n, ops[0]);
    assert s1 == Outcome(n, Some(PersonMissing("Jordan", "Johnny")));
    var s2 := Apply(s1.net, ops[1]);
    BefriendMorganCasey(s1.net);
    BefriendTaylorRiley(s2.net);
    RunThree(n, ops);
  }

  lemma DemoFriendships3Outcome(n: Network)
    requires DemoState(n, ["Jordan", "Morgan"], ["Alex", "Taylor"], ["Alex", "Casey"], ["Jordan", "Riley"], ["Morgan"], ["Taylor"])
    ensures Run(n, DemoFriendships3).diagnostics == []
    ensures DemoState(Run(n, DemoFriendships3).net, ["Jordan", "Morgan", "Taylor"], ["Alex", "Taylor"], ["Alex", "Casey", "Riley"], ["Jordan", "Riley", "Alex"], ["Morgan", "Riley"], ["Taylor", "Casey", "Morgan"])
  {
    var ops := DemoFriendships3;
    var s1 := Apply(n, ops[0]);
    BefriendCaseyRiley(n);
    var s2 := Apply(s1.net, ops[1]);
    BefriendMorganRiley(s1.net);
    BefriendAlexTaylor(s2.net);
    RunThree(n, ops);
  }

  /**
   The demonstration script, run in its five groups of calls (by `RunFive`,
   the same as running all fifteen calls in one go), reports only the request
   naming the absent "Johnny", and ends with the people in the order added
   and these friend lists.
   */
  lemma DemoOutcome(start: Network)
    requires start.order == [] && start.people == map[]
    ensures var t1 := Run(start, DemoPeople1);
            var t2 := Run(t1.net, DemoPeople2);
            var t3 := Run(t2.net, DemoFriendships1);
            var t4 := Run(t3.net, DemoFriendships2);
            var t5 := Run(t4.net, DemoFriendships3);
            && t1.diagnostics == t2.diagnostics == t3.diagnostics == t5.diagnostics == []
            && t4.diagnostics == [PersonMissing("Jordan", "Johnny")]
            && DemoState(t5.net, ["Jordan", "Morgan", "Taylor"], ["Alex", "Taylor"], ["Alex", "Casey", "Riley"],
                         ["Jordan", "Riley", "Alex"], ["Morgan", "Riley"], ["Taylor", "Casey", "Morgan"])
  {
    var t1 := Run(start, DemoPeople1);
    DemoPeople1Outcome(start);
    var t2 := Run(t1.net, DemoPeople2);
    DemoPeople2Outcome(t1.net);
    var t3 := Run(t2.net, DemoFriendships1);
    DemoFriendships1Outcome(t2.net);
    var t4 := Run(t3.net, DemoFriendships2);
    DemoFriendships2Outcome(t3.net);
    DemoFriendships3Outcome(t4.net);
  }

  /**
   The demonstration script as one run of all fifteen calls from an empty
   network (such as `Empty()`): the only notice is for the request naming the
   absent "Johnny".
   */
  lemma DemoWhole(start: Network)
    requires start.order == [] && start.people == map[]
    ensures var t := Run(start, DemoPeople1 + DemoPeople2 + DemoFriendships1 + DemoFriendships2 + DemoFriendships3);
            && t.diagnostics == [PersonMissing("Jordan", "Johnny")]
            && DemoState(t.net, ["Jordan", "Morgan", "Taylor"], ["Alex", "Taylor"], ["Alex", "Casey", "Riley"],
                         ["Jordan", "Riley", "Alex"], ["Morgan", "Riley"], ["Taylor", "Casey", "Morgan"])
  {
    DemoOutcome(start);
    RunFive(start, DemoPeople1, DemoPeople2, DemoFriendships1, DemoFriendships2, DemoFriendships3);
  }
}
