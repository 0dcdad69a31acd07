# Social network friendship graph, modelled in Dafny

The repository is a single Python script, `social_network.py`. It holds an
in-memory social network. A `SocialNetwork` maps each person's name to a
`Person`, and each person keeps a list of friends. Adding a person whose name
is taken only prints a notice. Adding a friendship needs both people to exist:
if either is missing it prints a notice and changes nothing, and otherwise each
person is appended to the other's friend list unless already there.
`print_network` prints one line per person, in the order people were added,
with that person's friends in the order the friendships were made.

The model is functional. The network is the immutable value
`Network(order, people)`:

- `order` is the names in insertion order, which is the iteration order of the
  Python dict.
- `people` maps each name to `Person(name, friends)`.

Friends are stored by name. Each name has exactly one `Person` (lines 33-36),
so the identity test `friend not in self.friends` (line 15) is the same as
comparing names. Each operation returns the new network together with the
notice it would have printed, a `Diagnostic`; `Message` renders a notice as its
console line. The listing is returned as a sequence of lines instead of being
printed. It takes the network as a value, so it cannot change it.

Modules:

- `Persons` (`person.dfy`): the person record and `add_friend`.
- `SocialNetworks` (`network.dfy`): the network, its invariants, `add_person`,
  `add_friendship`, and the lemmas about them.
- `Rendering` (`rendering.dfy`): `print_network`, and `str.join` as `Join`.
- `History` (`history.dfy`): arbitrary sequences of calls, and the script's
  own demonstration sequence.

The invariants are collected in `SocialNetworks.Valid`:

- **WellFormed**: the order has no duplicates, its names are exactly the
  map's keys, and every person carries the name it is filed under.
- **Closed**: every friend is a person of the network.
- **DuplicateFree**: no friend list names anybody twice.
- **Symmetric**: b is in a's list exactly when a is in b's.

Self-friendship, `add_friendship(A, A)`, is not guarded in the code (lines
43-45). The model keeps that behaviour. The person's list gains their own name
once, because the second `add_friend` on line 45 finds it already there. Each
friend list is a Python list kept in insertion order, so the listing shows
friends in the order the friendships were made.

## Model

| member | source | states |
|---|---|---|
| Persons.NewPerson | social_network.py:10-12 | a new person carries the given name and has no friends (hence no duplicates) |
| Persons.AddFriend | social_network.py:14-16 | afterwards the friend is listed, the members are exactly the old ones plus the friend, the old list is a prefix of the new one, at most one entry is added, an already-listed friend leaves the person unchanged, and a duplicate-free list stays duplicate-free |
| Persons.AddFriendIdempotent | social_network.py:14-16 | adding the same friend twice gives the same person as adding it once |
| SocialNetworks.Empty | social_network.py:29-30 | the new network has nobody in it and satisfies all four invariants |
| SocialNetworks.Message | social_network.py:32-40 | the "already exists" line starts with the person's name; the "don't exist" line ends with the two requested names, joined by ", " in the order given |
| SocialNetworks.AddPerson | social_network.py:32-36 | a taken name gives the AlreadyExists notice and leaves the network exactly as it was; a new name gives no notice, goes to the end of the order with an empty friend list, adds exactly one key, and every existing person is unchanged |
| SocialNetworks.AddFriendship | social_network.py:38-45 | a notice is given exactly when either name is missing, and then the network is unchanged and the notice names both requested people; otherwise the order and keys are unchanged, each of a and b lists the other, people other than a and b are untouched, every list only grows at its end and stays duplicate-free, and each list's members afterwards are exactly its old members plus the new partner |
| SocialNetworks.AddPersonPreservesValid | social_network.py:32-36 | adding a person keeps all four invariants |
| SocialNetworks.AddFriendshipPreservesValid | social_network.py:38-45 | adding a friendship keeps all four invariants, symmetry included |
| SocialNetworks.AddPersonTwice | social_network.py:32-36 | adding a name a second time leaves the network as after the first call, and the second call reports AlreadyExists |
| SocialNetworks.AddFriendshipIdempotent | social_network.py:38-45 | repeating a friendship request gives the same network as making it once |
| SocialNetworks.AddFriendshipCommutes | social_network.py:38-45 | the requests (a, b) and (b, a) give the same network |
| SocialNetworks.AddFriendshipAppends | social_network.py:41-45 | for two different existing people who are not yet friends, the request gives no notice, appends b to the end of a's list and a to the end of b's, and leaves every other person and the order unchanged |
| SocialNetworks.OrderCountsPeople | social_network.py:30-36 | in a well-formed network the order has exactly as many names as there are people |
| Rendering.Join | social_network.py:50 | joining nothing gives the empty string; the first name starts the text; the length is the total length of the names plus one separator between each neighbouring pair |
| Rendering.JoinAppend | social_network.py:50 | joining one more name extends the joined text by the separator and that name |
| Rendering.Line | social_network.py:50 | a line starts with the name and " is friends with: ", and nothing follows that prefix when the person has no friends |
| Rendering.FriendNames | social_network.py:49 | when every person carries the name it is filed under, the names shown for a person are exactly their stored friend list, in order |
| Rendering.FriendNamesAreStored | social_network.py:49 | in a valid network the names shown are exactly the stored friend list |
| Rendering.PrintNetwork | social_network.py:47-50 | there is one line per name in insertion order, and line i is the i-th person's name followed by their friends' names in list order |
| Rendering.PrintValidNetwork | social_network.py:47-50 | in a valid network there is one line per person; line i shows the stored friend list of the i-th person added; a person without friends still gets a line with an empty tail |
| Rendering.LineGrowsWithNewFriend | social_network.py:14-16 | when a person gains a new friend, their rendered line is the old line plus ", " and the friend's name, or the bare prefix plus the name for a first friend |
| History.RunPreservesValid | social_network.py:29-45 | any sequence of calls that starts from a valid network ends in a valid one |
| History.ReachableIsValid | social_network.py:29-45 | every network built from an empty one by any sequence of calls satisfies all four invariants |
| History.RunExtends | social_network.py:32-45 | any sequence of calls only adds: the old order is a prefix of the new one, no person disappears or changes name, and every friend list only grows at its end |
| History.RunAppend | social_network.py:32-45 | running two call sequences one after the other gives the same network and the same notices, in order, as running their concatenation |
| History.DemoOutcome | social_network.py:54-73 | the script's calls, in their five groups, report only the request naming the absent "Johnny", and end with the six people in insertion order and the friend lists Alex: Jordan, Morgan, Taylor; Jordan: Alex, Taylor; Morgan: Alex, Casey, Riley; Taylor: Jordan, Riley, Alex; Casey: Morgan, Riley; Riley: Taylor, Casey, Morgan |
| History.DemoWhole | social_network.py:54-73 | the script's fifteen calls, run in one go from any network with nobody in it (such as `Empty()`), give exactly one notice, for the request naming the absent "Johnny" (line 68), and end with the friend lists stated for DemoOutcome |

## Left out

- Console output: `print` calls become returned values. A notice is a `Diagnostic`, and the listing is a sequence of lines.
- Python object identity and aliasing of `Person` objects: each name has exactly one person, so the name-based model says the same thing.
- The names' type: Python accepts any hashable key, and the model uses strings.
- The demonstration script never calls `print_network`. It ends with a comment on line 75. So `History.DemoOutcome` checks the notices and the friend lists, not printed lines.
- SocialNetworks.Message: the contract states only the part of each line that carries data (the leading name, or the two trailing names). The fixed wording is stated only in the body.
