/**
 The social network: people keyed by name, kept in the order they were added
 (the insertion order of the Python dictionary), and the two mutating
 operations, adding a person and adding a friendship. Console diagnostics are
 returned as values instead of being printed.
 */
module SocialNetworks {
  import opened Persons

  datatype Option<T> = None | Some(value: T)

  /**
   `order` lists the names in the order they were added; `people` maps each
   name to its person record.
   */
  datatype Network = Network(order: seq<string>, people: map<string, Person>)

  /** The state after an operation, and the diagnostic line it emitted, if any. */
  datatype Outcome = Outcome(net: Network, diagnostic: Option<Diagnostic>)

  // ---------------------------------------------------------------------------
  // Invariants
  // ---------------------------------------------------------------------------

  /**
   The order lists every key exactly once and nothing else, and every person
   carries the name it is filed under.
   */
  predicate WellFormed(n: Network) {
    && NoDuplicates(n.order)
    && (forall k :: k in n.people ==> k in n.order)
    && (forall k :: k in n.order ==> k in n.people)
    && (forall k :: k in n.people ==> n.people[k].name == k)
  }

  /** Every friend named in a list is a person of the network. */
  predicate Closed(n: Network) {
    forall k, f :: k in n.people && f in n.people[k].friends ==> f in n.people
  }

  /** No friend list names anybody twice. */
  predicate DuplicateFree(n: Network) {
    forall k :: k in n.people ==> NoDuplicates(n.people[k].friends)
  }

  /** Friendship is mutual: b lists a whenever a lists b. */
  predicate Symmetric(n: Network) {
    forall a, b :: a in n.people && b in n.people && b in n.people[a].friends ==> a in n.people[b].friends
  }

  predicate Valid(n: Network) {
    WellFormed(n) && Closed(n) && DuplicateFree(n) && Symmetric(n)
  }

  // ---------------------------------------------------------------------------
  // Diagnostics
  // ---------------------------------------------------------------------------

  /** The two notices the network prints instead of failing. */
  datatype Diagnostic =
    | AlreadyExists(name: string)
    | PersonMissing(first: string, second: string)

  /** The console line of a notice. */
  function Message(d: Diagnostic): (line: string)
    ensures d.AlreadyExists? ==> d.name <= line
    ensures d.PersonMissing? ==> |d.first + ", " + d.second| <= |line| && line[|line| - |d.first + ", " + d.second|..] == d.first + ", " + d.second
  {
    match d
    case AlreadyExists(name) => name + " already exists in the network."
    case PersonMissing(a, b) => "Friendship not created. One or both people don't exist: " + a + ", " + b
  }

  // ---------------------------------------------------------------------------
  // Operations
  // ---------------------------------------------------------------------------

  /** A network with nobody in it. */
  function Empty(): (n: Network)
    ensures Valid(n)
    ensures |n.order| == 0 && n.people == map[]
  {
    Network([], map[])
  }

  /**
   Adds a person with no friends under `name`. A name that is already taken
   is reported and nothing changes; otherwise the name goes to the end of the
   order and every existing person is left as it was.
   */
  function AddPerson(n: Network, name: string): (r: Outcome)
    ensures name in n.people ==> r.net == n && r.diagnostic == Some(AlreadyExists(name))
    ensures name !in n.people ==>
              && r.diagnostic == None
              && r.net.order == n.order + [name]
              && r.net.people.Keys == n.people.Keys + {name}
              && r.net.people[name].name == name
              && |r.net.people[name].friends| == 0
              && (forall k :: k in n.people ==> r.net.people[k] == n.people[k])
  {
    if name in n.people then
      Outcome(n, Some(AlreadyExists(name)))
    else
      Outcome(Network(n.order + [name], n.people[name := NewPerson(name)]), None)
  }

  /**
   Makes `a` and `b` friends of each other. Unless both are people of the
   network, the request is reported and nothing changes. Otherwise exactly
   one edge is added on each side (if not already there): the order and the
   key set stay the same, only the lists of `a` and `b` may change, each of
   them only by growing at its end, and each list afterwards holds exactly
   its old entries plus the new partner. Nothing guards `a == b`: the person
   then becomes their own friend, once.
   */
  function AddFriendship(n: Network, a: string, b: string): (r: Outcome)
    ensures r.diagnostic.Some? <==> a !in n.people || b !in n.people
    ensures r.diagnostic.Some? ==> r.net == n && r.diagnostic == Some(PersonMissing(a, b))
    ensures r.diagnostic.None? ==>
              && r.net.order == n.order
              && r.net.people.Keys == n.people.Keys
              && b in r.net.people[a].friends
              && a in r.net.people[b].friends
              && (forall k :: k in n.people && k != a && k != b ==> r.net.people[k] == n.people[k])
              && (forall k :: k in n.people ==>
                    && r.net.people[k].name == n.people[k].name
                    && n.people[k].friends <= r.net.people[k].friends
                    && (NoDuplicates(n.people[k].friends) ==> NoDuplicates(r.net.people[k].friends)))
              && (forall k, x :: k in n.people ==>
                    (x in r.net.people[k].friends <==>
                       x in n.people[k].friends || (k == a && x == b) || (k == b && x == a)))
  {
    if a !in n.people || b !in n.people then
      Outcome(n, Some(PersonMissing(a, b)))
    else
      var afterA := n.people[a := AddFriend(n.people[a], b)];
      var afterB := afterA[b := AddFriend(afterA[b], a)];
      assert forall k :: k in n.people && k != a && k != b ==> afterB[k] == n.people[k];
      Outcome(Network(n.order, afterB), None)
  }

  // ---------------------------------------------------------------------------
  // Invariant preservation
  // ---------------------------------------------------------------------------

  lemma AddPersonPreservesValid(n: Network, name: string)
    requires Valid(n)
    ensures Valid(AddPerson(n, name).net)
  {
  }

  lemma AddFriendshipPreservesValid(n: Network, a: string, b: string)
    requires Valid(n)
    ensures Valid(AddFriendship(n, a, b).net)
  {
  }

  // ---------------------------------------------------------------------------
  // Idempotence and argument order
  // ---------------------------------------------------------------------------

  /** Adding the same name twice leaves one person, and the second call is reported. */
  lemma AddPersonTwice(n: Network, name: string)
    ensures AddPerson(AddPerson(n, name).net, name).net == AddPerson(n, name).net
    ensures AddPerson(AddPerson(n, name).net, name).diagnostic == Some(AlreadyExists(name))
  {
  }

  /** Repeating a friendship request changes nothing the first one did not. */
  lemma AddFriendshipIdempotent(n: Network, a: string, b: string)
    ensures AddFriendship(AddFriendship(n, a, b).net, a, b).net == AddFriendship(n, a, b).net
  {
  }

  /** Which of the two names comes first does not matter to the resulting network. */
  lemma AddFriendshipCommutes(n: Network, a: string, b: string)
    ensures AddFriendship(n, a, b).net == AddFriendship(n, b, a).net
  {
  }

  /**
   A friendship between two different people who are not yet friends puts
   each at the end of the other's list and touches no other list.
   */
  lemma AddFriendshipAppends(n: Network, a: string, b: string)
    requires a in n.people && b in n.people && a != b
    requires b !in n.people[a].friends && a !in n.people[b].friends
    ensures AddFriendship(n, a, b).diagnostic == None
    ensures AddFriendship(n, a, b).net.order == n.order
    ensures AddFriendship(n, a, b).net.people.Keys == n.people.Keys
    ensures AddFriendship(n, a, b).net.people[a].friends == n.people[a].friends + [b]
    ensures AddFriendship(n, a, b).net.people[b].friends == n.people[b].friends + [a]
    ensures forall k :: k in n.people && k != a && k != b ==> AddFriendship(n, a, b).net.people[k] == n.people[k]
  {
  }

  // ---------------------------------------------------------------------------
  // Shape of a valid network
  // ---------------------------------------------------------------------------

  /** A valid network lists each person exactly once. */
  lemma OrderCountsPeople(n: Network)
    requires WellFormed(n)
    ensures |n.order| == |n.people|
  {
    DistinctCount(n.order);
    assert n.people.Keys == set x | x in n.order;
  }
}
