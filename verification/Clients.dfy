/** client.c, and its counterpart in server.py: the list of waiting browsers. */
module Clients {
  import opened Protocol

  // A QUERY struct; answers is "" until there is one.
  datatype QueryC = QueryC(destination: Name, startTime: string, answers: string)

  datatype Client = Client(fd: int, query: QueryC)

  predicate SameJourney(a: QueryC, b: QueryC) {
    a.destination == b.destination && a.startTime == b.startTime
  }

  // ----- what the list operations mean

  ghost predicate DistinctFds(clients: seq<Client>) {
    forall i, j :: 0 <= i < j < |clients| ==> clients[i].fd != clients[j].fd
  }

  // Without its first client on this descriptor.
  function RemoveFd(clients: seq<Client>, fd: int): seq<Client> {
    if clients == [] then []
    else if clients[0].fd == fd then clients[1..]
    else [clients[0]] + RemoveFd(clients[1..], fd)
  }

  // What server.py's remove_client makes of it: the first client of all is never taken out.
  function RemoveFdPython(clients: seq<Client>, fd: int): seq<Client> {
    if clients != [] && clients[0].fd == fd then clients else RemoveFd(clients, fd)
  }

  /** ... and any other is, when the clients before it are on other descriptors. */
  lemma RemoveFdPythonIs(clients: seq<Client>, fd: int, i: nat)
    requires i <= |clients| && forall k :: 0 <= k < i ==> clients[k].fd != fd
    requires i < |clients| ==> clients[i].fd == fd
    ensures RemoveFdPython(clients, fd) ==
              if 0 < i < |clients| then clients[..i] + clients[i + 1..] else clients
  {
    RemoveFdIs(clients, fd, i);
  }

  /** ... so the descriptor is still there exactly when the first client has it. */
  lemma StaysIffFirst(clients: seq<Client>, fd: int)
    requires DistinctFds(clients)
    ensures DistinctFds(RemoveFdPython(clients, fd)) && forall c :: c in RemoveFdPython(clients, fd) ==> c in clients
    ensures (exists c :: c in RemoveFdPython(clients, fd) && c.fd == fd) <==> clients != [] && clients[0].fd == fd
  {
    RemoveFdKeepsOrder(clients, fd);
  }

  // The clients that asked something else, in order.
  function Others(clients: seq<Client>, q: QueryC): seq<Client> {
    if clients == [] then []
    else (if SameJourney(clients[0].query, q) then [] else [clients[0]]) + Others(clients[1..], q)
  }

  // The descriptors of the clients that asked this, in order.
  function Askers(clients: seq<Client>, q: QueryC): seq<int> {
    if clients == [] then []
    else (if SameJourney(clients[0].query, q) then [clients[0].fd] else []) + Askers(clients[1..], q)
  }

  lemma {:induction false} RemoveFdKeepsOrder(clients: seq<Client>, fd: int)
    ensures |RemoveFd(clients, fd)| <= |clients|
    ensures forall c :: c in RemoveFd(clients, fd) ==> c in clients
    ensures DistinctFds(clients) ==>
              DistinctFds(RemoveFd(clients, fd)) && forall c :: c in RemoveFd(clients, fd) ==> c.fd != fd
  {
    if clients != [] {
      var rest := RemoveFd(clients[1..], fd);
      RemoveFdKeepsOrder(clients[1..], fd);
      if DistinctFds(clients) {
        FirstIsDistinct(clients);
        DistinctCons(clients[0], rest);
      }
    }
  }

  lemma FirstIsDistinct(clients: seq<Client>)
    requires clients != [] && DistinctFds(clients)
    ensures DistinctFds(clients[1..]) && forall c :: c in clients[1..] ==> c.fd != clients[0].fd
  {
  }

  lemma DistinctCons(c: Client, rest: seq<Client>)
    requires DistinctFds(rest)
    ensures (forall other :: other in rest ==> other.fd != c.fd) ==> DistinctFds([c] + rest)
  {
  }

  /** Remove, then add: a descriptor is never in the list twice. */
  lemma RemoveThenAddKeepsFdsDistinct(clients: seq<Client>, c: Client)
    requires DistinctFds(clients)
    ensures DistinctFds([c] + RemoveFd(clients, c.fd))
  {
    RemoveFdKeepsOrder(clients, c.fd);
    DistinctCons(c, RemoveFd(clients, c.fd));
  }

  // The place of the first client that asked this, or |clients|.
  function FirstAsker(clients: seq<Client>, q: QueryC): (i: nat)
    ensures i <= |clients|
    ensures i < |clients| ==> SameJourney(clients[i].query, q)
    ensures forall k :: 0 <= k < i ==> !SameJourney(clients[k].query, q)
  {
    if clients == [] || SameJourney(clients[0].query, q) then 0 else 1 + FirstAsker(clients[1..], q)
  }

  // Taking out the first asker leaves the others, and the rest of the askers, as they were.
  lemma {:induction false} OneFewer(clients: seq<Client>, q: QueryC, i: nat)
    requires i < |clients| && SameJourney(clients[i].query, q)
    requires forall k :: 0 <= k < i ==> !SameJourney(clients[k].query, q)
    ensures var rest := clients[..i] + clients[i + 1..];
            Others(rest, q) == Others(clients, q) && [clients[i].fd] + Askers(rest, q) == Askers(clients, q)
  {
    var rest := clients[..i] + clients[i + 1..];
    if i == 0 {
      assert rest == clients[1..];
    } else {
      OneFewer(clients[1..], q, i - 1);
      assert rest[0] == clients[0] && rest[1..] == clients[1..][..i - 1] + clients[1..][i..];
      assert clients[1..][i - 1] == clients[i];
    }
  }

  lemma {:induction false} NoAskers(clients: seq<Client>, q: QueryC)
    requires FirstAsker(clients, q) == |clients|
    ensures Others(clients, q) == clients && Askers(clients, q) == []
  {
    if clients != [] {
      NoAskers(clients[1..], q);
    }
  }

  // ----- the linked list

  class ClientNode {
    const fd: int
    const query: QueryC
    var next: ClientNode?

    constructor (fd: int, query: QueryC, next: ClientNode?)
      ensures this.fd == fd && this.query == query && this.next == next
    {
      this.fd, this.query, this.next := fd, query, next;
    }
  }

  // The clients of a chain of nodes; a node's descriptor and query never change.
  function ClientsOf(nodes: seq<ClientNode>): (c: seq<Client>)
    ensures |c| == |nodes| && forall i :: 0 <= i < |nodes| ==> c[i] == Client(nodes[i].fd, nodes[i].query)
  {
    seq(|nodes|, i requires 0 <= i < |nodes| => Client(nodes[i].fd, nodes[i].query))
  }

  ghost predicate DistinctNodes(nodes: seq<ClientNode>) {
    forall i, j :: 0 <= i < j < |nodes| ==> nodes[i] != nodes[j]
  }

  ghost function After(nodes: seq<ClientNode>, i: nat): ClientNode? {
    if i + 1 < |nodes| then nodes[i + 1] else null
  }

  ghost predicate Chain(nodes: seq<ClientNode>)
    reads nodes
  {
    forall i {:trigger After(nodes, i)} :: 0 <= i < |nodes| ==> nodes[i].next == After(nodes, i)
  }

  // The chain from node i on.
  ghost predicate ChainFrom(nodes: seq<ClientNode>, i: nat)
    reads nodes
  {
    forall k {:trigger After(nodes, k)} :: i <= k < |nodes| ==> nodes[k].next == After(nodes, k)
  }

  class ClientList {
    var head: ClientNode?
    ghost var nodes: seq<ClientNode>

    constructor ()
      ensures Valid() && Contents() == [] && nodes == []
    {
      head, nodes := null, [];
    }

    ghost predicate Valid()
      reads this, nodes
    {
      DistinctNodes(nodes) && Chain(nodes) && head == if nodes == [] then null else nodes[0]
    }

    ghost function Contents(): seq<Client>
      reads this
    {
      ClientsOf(nodes)
    }

    method Add(fd: int, query: QueryC)
      requires Valid()
      modifies this
      ensures Valid() && Contents() == [Client(fd, query)] + old(Contents())
      ensures nodes[1..] == old(nodes) && fresh(nodes[0])
    {
      var node := new ClientNode(fd, query, head);
      head := node;
      ghost var longer := [node] + nodes;
      forall i | 0 <= i < |longer| ensures longer[i].next == After(longer, i) {
        if i > 0 {
          assert nodes[i - 1].next == After(nodes, i - 1);
        }
      }
      nodes := longer;
    }

    // The first client that asked this, or null.
    method Find(q: QueryC) returns (found: ClientNode?)
      requires Valid()
      ensures var i := FirstAsker(Contents(), q);
              found == if i < |nodes| then nodes[i] else null
    {
      found := head;
      ghost var i := 0;
      while found != null
        invariant i <= |nodes| && forall k :: 0 <= k < i ==> !SameJourney(nodes[k].query, q)
        invariant found == if i < |nodes| then nodes[i] else null
        decreases |nodes| - i
      {
        if SameJourney(found.query, q) {
          return;
        }
        assert found.next == After(nodes, i);
        found, i := found.next, i + 1;
      }
    }

    // The pointer-to-pointer walk: before is the node whose next is looked at, null for the head itself.
    method Locate(fd: int) returns (before: ClientNode?, entry: ClientNode?, ghost i: nat)
      requires Valid()
      ensures i <= |nodes| && entry == (if i < |nodes| then nodes[i] else null)
      ensures before == if i == 0 then null else nodes[i - 1]
      ensures (forall k :: 0 <= k < i ==> nodes[k].fd != fd) && (i < |nodes| ==> nodes[i].fd == fd)
    {
      before, entry, i := null, head, 0;
      while entry != null && entry.fd != fd
        invariant i <= |nodes| && entry == (if i < |nodes| then nodes[i] else null)
        invariant before == if i == 0 then null else nodes[i - 1]
        invariant forall k :: 0 <= k < i ==> nodes[k].fd != fd
        decreases |nodes| - i
      {
        assert entry.next == After(nodes, i);
        before, entry, i := entry, entry.next, i + 1;
      }
    }

    method Remove(fd: int)
      requires Valid()
      modifies this, nodes
      ensures Valid() && Contents() == RemoveFd(old(Contents()), fd)
      ensures forall k :: 0 <= k < |nodes| ==> nodes[k] in old(nodes)
    {
      var before, entry, i := Locate(fd);
      RemoveFdIs(Contents(), fd, i);
      if entry != null {
        ClientsWithout(nodes, i);
        Unlink(before, entry, i);
      }
    }

    // A client takes the place of the one there may be on its descriptor, first in the list.
    method Readd(fd: int, query: QueryC)
      requires Valid() && DistinctFds(Contents())
      modifies this, nodes
      ensures Valid() && DistinctFds(Contents())
      ensures Contents() == [Client(fd, query)] + RemoveFd(old(Contents()), fd)
    {
      RemoveThenAddKeepsFdsDistinct(Contents(), Client(fd, query));
      Remove(fd);
      Add(fd, query);
    }

    method Unlink(before: ClientNode?, entry: ClientNode, ghost i: nat)
      requires Valid() && i < |nodes| && entry == nodes[i]
      requires before == if i == 0 then null else nodes[i - 1]
      modifies this, before
      ensures Valid() && nodes == old(nodes[..i] + nodes[i + 1..])
    {
      if before == null {
        assert entry.next == After(nodes, 0);
        head := entry.next;
        forall k | 1 <= k < |nodes| ensures nodes[k].next == After(nodes[1..], k - 1) {
          assert nodes[k].next == After(nodes, k);
        }
        nodes := nodes[..0] + nodes[1..];
      } else {
        UnlinkAfter(before, entry, i);
      }
    }

    /** server.py's remove_client never unlinks the head: it removes a descriptor exactly when the first
        client is not the one that has it. */
    method RemovePython(fd: int)
      requires Valid() && DistinctFds(Contents())
      modifies this`nodes, nodes
      ensures Valid() && head == old(head)
      ensures Contents() == RemoveFdPython(old(Contents()), fd)
    {
      var prev: ClientNode? := null;
      var current := head;
      ghost var i := 0;
      ghost var was := nodes;
      ghost var gone := |was|;
      while current != null
        invariant Valid() && head == old(head)
        invariant gone <= |was| && i <= |was| && current == (if i < |was| then was[i] else null)
        invariant prev == if i == 0 then null else was[i - 1]
        invariant ChainFrom(was, i)
        invariant gone == |was| ==> nodes == was && forall k :: 0 < k < i ==> was[k].fd != fd
        invariant gone < |was| ==> 0 < gone < i && was[gone].fd == fd && nodes == was[..gone] + was[gone + 1..]
        decreases |was| - i
      {
        assert current.next == After(was, i);
        if current.fd == fd {
          if prev != null {
            if gone < |was| {
              OneNodePerFd(was, gone, i);
            }
            UnlinkAfter(prev, current, i);
            gone := i;
          }
        }
        prev, current := current, current.next;
        i := i + 1;
      }
      RemovedOne(was, fd, gone);
    }

    method UnlinkAfter(prev: ClientNode, entry: ClientNode, ghost i: nat)
      requires Valid() && 0 < i < |nodes| && entry == nodes[i] && prev == nodes[i - 1]
      modifies this`nodes, prev
      ensures Valid() && nodes == old(nodes[..i] + nodes[i + 1..]) && ChainFrom(old(nodes), i)
    {
      assert entry.next == After(nodes, i);
      prev.next := entry.next;
      ghost var was := nodes;
      nodes := was[..i] + was[i + 1..];
      forall k | 0 <= k < |nodes| ensures nodes[k].next == After(nodes, k) {
        var m := if k < i then k else k + 1;
        assert nodes[k] == was[m];
        assert old(was[m].next) == After(was, m);
        assert k != i - 1 ==> was[m] != prev;
      }
      forall k | i <= k < |was| ensures was[k].next == After(was, k) {
        assert old(was[k].next) == After(was, k) && was[k] != prev;
      }
    }

    // Take out the first client that asked this.
    method AnswerFirst(q: QueryC, client: ClientNode)
      requires Valid() && DistinctFds(Contents())
      requires var i := FirstAsker(Contents(), q); i < |nodes| && client == nodes[i]
      modifies this, nodes
      ensures Valid() && DistinctFds(Contents()) && |nodes| == |old(nodes)| - 1
      ensures forall k :: 0 <= k < |nodes| ==> nodes[k] in old(nodes)
      ensures Others(Contents(), q) == Others(old(Contents()), q)
      ensures [client.fd] + Askers(Contents(), q) == Askers(old(Contents()), q)
    {
      AnswerOne(Contents(), q, FirstAsker(Contents(), q));
      Remove(client.fd);
    }

    /** Answering a query: every client that asked it is answered once, in order, and the list keeps
        exactly the others, in order. */
    method Drain(q: QueryC) returns (answered: seq<int>)
      requires Valid() && DistinctFds(Contents())
      modifies this, nodes
      ensures Valid() && Contents() == Others(old(Contents()), q)
      ensures answered == Askers(old(Contents()), q)
    {
      hide Others, Askers;
      answered := [];
      var client := Find(q);
      while client != null
        invariant Valid() && DistinctFds(Contents())
        invariant forall k :: 0 <= k < |nodes| ==> nodes[k] in old(nodes)
        invariant Others(Contents(), q) == Others(old(Contents()), q)
        invariant answered + Askers(Contents(), q) == Askers(old(Contents()), q)
        invariant var i := FirstAsker(Contents(), q); client == if i < |nodes| then nodes[i] else null
        decreases |nodes|
      {
        AnswerFirst(q, client);
        AppendOne(answered, client.fd, Askers(Contents(), q));
        answered := answered + [client.fd];
        client := Find(q);
      }
      NoAskers(Contents(), q);
    }
  }

  lemma {:induction false} RemoveFdIs(clients: seq<Client>, fd: int, i: nat)
    requires i <= |clients| && forall k :: 0 <= k < i ==> clients[k].fd != fd
    requires i < |clients| ==> clients[i].fd == fd
    ensures RemoveFd(clients, fd) == if i < |clients| then clients[..i] + clients[i + 1..] else clients
  {
    if i > 0 {
      RemoveFdIs(clients[1..], fd, i - 1);
      if i < |clients| {
        assert clients[..i] + clients[i + 1..] == [clients[0]] + (clients[1..][..i - 1] + clients[1..][i..]);
      }
    }
  }

  lemma OneNodePerFd(nodes: seq<ClientNode>, i: nat, j: nat)
    requires DistinctFds(ClientsOf(nodes)) && i < j < |nodes|
    ensures nodes[i].fd != nodes[j].fd
  {
    assert ClientsOf(nodes)[i].fd != ClientsOf(nodes)[j].fd;
  }

  lemma ClientsWithout(was: seq<ClientNode>, gone: nat)
    requires gone < |was|
    ensures ClientsOf(was[..gone] + was[gone + 1..]) == ClientsOf(was)[..gone] + ClientsOf(was)[gone + 1..]
  {
  }

  lemma RemovedOne(was: seq<ClientNode>, fd: int, gone: nat)
    requires DistinctFds(ClientsOf(was)) && gone <= |was|
    requires gone < |was| ==> 0 < gone && was[gone].fd == fd
    requires gone == |was| ==> forall k :: 0 < k < |was| ==> was[k].fd != fd
    ensures var left := if gone < |was| then was[..gone] + was[gone + 1..] else was;
            ClientsOf(left) == if was != [] && was[0].fd == fd then ClientsOf(was) else RemoveFd(ClientsOf(was), fd)
  {
    if gone < |was| {
      forall k | 0 <= k < gone ensures ClientsOf(was)[k].fd != fd {
        OneNodePerFd(was, k, gone);
      }
      RemoveFdIs(ClientsOf(was), fd, gone);
      ClientsWithout(was, gone);
    } else if was == [] || was[0].fd != fd {
      RemoveFdIs(ClientsOf(was), fd, |was|);
    }
  }

  lemma AppendOne(answered: seq<int>, fd: int, rest: seq<int>)
    ensures answered + [fd] + rest == answered + ([fd] + rest)
  {
  }

  // Answering the first asker moves its descriptor from the askers to the answered.
  lemma AnswerOne(clients: seq<Client>, q: QueryC, i: nat)
    requires DistinctFds(clients) && i < |clients| && SameJourney(clients[i].query, q)
    requires forall k :: 0 <= k < i ==> !SameJourney(clients[k].query, q)
    ensures var rest := RemoveFd(clients, clients[i].fd);
            |rest| == |clients| - 1 && DistinctFds(rest) && Others(rest, q) == Others(clients, q)
            && [clients[i].fd] + Askers(rest, q) == Askers(clients, q)
  {
    RemoveFdIs(clients, clients[i].fd, i);
    OneFewer(clients, q, i);
    RemoveFdKeepsOrder(clients, clients[i].fd);
  }
}
