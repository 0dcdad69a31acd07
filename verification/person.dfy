/**
 A person of the social network: a name and the friends that person has made,
 in the order the friendships were made. Friends are kept by name; since the
 network holds exactly one person per name, "this friend is already listed"
 (object identity in social_network.py) is the same test as name equality.
 */
module Persons {

  datatype Person = Person(name: string, friends: seq<string>)

  /** No name occurs twice in `s`. */
  predicate NoDuplicates(s: seq<string>) {
    forall i, j :: 0 <= i < j < |s| ==> s[i] != s[j]
  }

  /** A freshly created person knows nobody yet. */
  function NewPerson(name: string): (p: Person)
    ensures p.name == name
    ensures |p.friends| == 0
    ensures NoDuplicates(p.friends)
  {
    Person(name, [])
  }

  /**
   Records `friend` as a friend of `p`, unless `p` already lists that friend.
   The list only ever grows at its end, gains at most one entry, and never
   gains a duplicate.
   */
  function AddFriend(p: Person, friend: string): (r: Person)
    ensures r.name == p.name
    ensures friend in r.friends
    ensures forall x :: x in r.friends <==> x in p.friends || x == friend
    ensures p.friends <= r.friends
    ensures |r.friends| <= |p.friends| + 1
    ensures friend in p.friends ==> r == p
    ensures NoDuplicates(p.friends) ==> NoDuplicates(r.friends)
  {
    if friend in p.friends then p else Person(p.name, p.friends + [friend])
  }

  /** Adding the same friend a second time changes nothing. */
  lemma AddFriendIdempotent(p: Person, friend: string)
    ensures AddFriend(AddFriend(p, friend), friend) == AddFriend(p, friend)
  {
  }

  /**
   A set of distinct names has exactly as many elements as the duplicate-free
   list that holds them.
   */
  lemma {:induction false} DistinctCount(s: seq<string>)
    requires NoDuplicates(s)
    ensures |set x | x in s| == |s|
  {
    if |s| > 0 {
      var tail := s[1..];
      assert NoDuplicates(tail) by {
        forall i, j | 0 <= i < j < |tail| ensures tail[i] != tail[j] {
          assert tail[i] == s[i + 1] && tail[j] == s[j + 1];
        }
      }
      DistinctCount(tail);
      assert s[0] !in tail by {
        forall k | 0 <= k < |tail| ensures tail[k] != s[0] {
          assert tail[k] == s[k + 1];
        }
      }
      assert (set x | x in s) == (set x | x in tail) + {s[0]} by {
        assert s == [s[0]] + tail;
      }
    }
  }
}
