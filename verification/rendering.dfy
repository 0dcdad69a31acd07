/**
 Rendering the network as text: one line per person, in the order people were
 added, each naming that person's friends in the order the friendships were
 made. The lines are returned rather than printed, and rendering takes the
 network as a value, so it cannot change it.
 */
module Rendering {
  import opened Persons
  import opened SocialNetworks

  /** Total length of all strings in `xs`. */
  function TotalLength(xs: seq<string>): nat {
    if |xs| == 0 then 0 else |xs[0]| + TotalLength(xs[1..])
  }

  /**
   The strings of `xs` with `sep` between neighbours (Python's
   `str.join`). Every string contributes its characters once, and exactly one
   separator sits between each neighbouring pair.
   */
  function Join(sep: string, xs: seq<string>): (r: string)
    ensures |xs| == 0 ==> r == ""
    ensures |xs| > 0 ==> xs[0] <= r
    ensures |r| == TotalLength(xs) + (if |xs| == 0 then 0 else (|xs| - 1) * |sep|)
    decreases |xs|
  {
    if |xs| == 0 then ""
    else if |xs| == 1 then xs[0]
    else xs[0] + sep + Join(sep, xs[1..])
  }

  /** Joining one more string extends the joined text at its end. */
  lemma {:induction false} JoinAppend(sep: string, xs: seq<string>, x: string)
    requires |xs| > 0
    ensures Join(sep, xs + [x]) == Join(sep, xs) + sep + x
    decreases |xs|
  {
    if |xs| == 1 {
      assert (xs + [x])[1..] == [x];
    } else {
      assert (xs + [x])[1..] == xs[1..] + [x];
      JoinAppend(sep, xs[1..], x);
    }
  }

  const FriendsWith: string := " is friends with: "

  /** One rendered line: the person's name, then the friends' names joined by ", ". */
  function Line(name: string, friendNames: seq<string>): (line: string)
    ensures name + FriendsWith <= line
    ensures |friendNames| == 0 ==> line == name + FriendsWith
  {
    name + FriendsWith + Join(", ", friendNames)
  }

  /** A network whose people can be listed: every key in the order and every friend is a person. */
  predicate Renderable(n: Network) {
    && (forall k :: k in n.order ==> k in n.people)
    && Closed(n)
  }

  /** The names the friends of person `k` carry, in list order. */
  function FriendNames(n: Network, k: string): (names: seq<string>)
    requires k in n.people
    requires Closed(n)
    ensures (forall j :: j in n.people ==> n.people[j].name == j) ==> names == n.people[k].friends
  {
    var friends := n.people[k].friends;
    seq(|friends|, i requires 0 <= i < |friends| => n.people[friends[i]].name)
  }

  /** In a valid network every friend's name is the name stored in the list. */
  lemma FriendNamesAreStored(n: Network, k: string)
    requires Valid(n)
    requires k in n.people
    ensures FriendNames(n, k) == n.people[k].friends
  {
  }

  /**
   Lists the network: line `i` belongs to the `i`-th person added, and shows
   that person's friends in the order they were added.
   */
  method PrintNetwork(n: Network) returns (lines: seq<string>)
    requires Renderable(n)
    ensures |lines| == |n.order|
    ensures forall i :: 0 <= i < |n.order| ==> lines[i] == Line(n.order[i], FriendNames(n, n.order[i]))
  {
    lines := [];
    var i := 0;
    while i < |n.order|
      invariant 0 <= i <= |n.order|
      invariant |lines| == i
      invariant forall j :: 0 <= j < i ==> lines[j] == Line(n.order[j], FriendNames(n, n.order[j]))
    {
      var name := n.order[i];
      lines := lines + [Line(name, FriendNames(n, name))];
      i := i + 1;
    }
  }

  /**
   In a valid network the listing has one line per person, and the line of
   each person shows exactly the stored friend list; a person without friends
   still gets a line, with nothing after the colon.
   */
  method PrintValidNetwork(n: Network) returns (lines: seq<string>)
    requires Valid(n)
    ensures |lines| == |n.order| == |n.people|
    ensures forall i :: 0 <= i < |lines| ==>
              lines[i] == n.order[i] + FriendsWith + Join(", ", n.people[n.order[i]].friends)
    ensures forall i :: 0 <= i < |lines| && |n.people[n.order[i]].friends| == 0 ==>
              lines[i] == n.order[i] + FriendsWith
  {
    OrderCountsPeople(n);
    lines := PrintNetwork(n);
    forall i | 0 <= i < |lines|
      ensures lines[i] == n.order[i] + FriendsWith + Join(", ", n.people[n.order[i]].friends)
    {
      FriendNamesAreStored(n, n.order[i]);
    }
  }

  /**
   Making a new friend extends that person's rendered line: the new friend's
   name is appended after a ", " (or directly after the colon for a first friend).
   */
  lemma LineGrowsWithNewFriend(p: Person, f: string)
    requires f !in p.friends
    ensures |p.friends| == 0 ==> Line(p.name, AddFriend(p, f).friends) == p.name + FriendsWith + f
    ensures |p.friends| > 0 ==> Line(p.name, AddFriend(p, f).friends) == Line(p.name, p.friends) + ", " + f
  {
    if |p.friends| > 0 {
      JoinAppend(", ", p.friends, f);
    } else {
      assert AddFriend(p, f).friends == [f];
    }
  }
}
