/**
 The Quotinator server keeps its client structs on two linked lists over one fixed pool: the active
 list and the free list. Both are threaded through the same `next` pointers.
 */
module ClientLists {
  import opened Sequences

  const CLIENT_RECV_BUFFER := 4095
  const MAX_CLIENTS := 256

  /** What one pass finds at a client: the sizes `read` returns, how reading ends, what its command does. */
  datatype Input = Input(sizes: seq<nat>, closed: bool, clears: bool, quits: bool, authenticates: bool)

  /** Buffer content after reading as much as the buffer takes. */
  function AfterReads(content: nat, sizes: seq<nat>): nat
    decreases |sizes|
  {
    if sizes == [] || content >= CLIENT_RECV_BUFFER || sizes[0] == 0 then content
    else AfterReads(content + Min(sizes[0], CLIENT_RECV_BUFFER - content), sizes[1..])
  }

  /** Reading ended with the peer having closed the connection. */
  predicate SeesClose(content: nat, input: Input) {
    AfterReads(content, input.sizes) < CLIENT_RECV_BUFFER && input.closed
  }

  function AfterCommand(content: nat, input: Input): nat {
    if SeesClose(content, input) then AfterReads(content, input.sizes)
    else if input.clears then 0 else AfterReads(content, input.sizes)
  }

  /** The client is let go in this pass. */
  predicate Leaves(content: nat, input: Input) {
    SeesClose(content, input) || input.quits || AfterCommand(content, input) == CLIENT_RECV_BUFFER
  }

  /** The bytes that the peer has sent until a read finds none. */
  function Received(sizes: seq<nat>): nat {
    if sizes == [] || sizes[0] == 0 then 0 else sizes[0] + Received(sizes[1..])
  }

  /** The buffer takes what has been sent, as far as there is room. */
  lemma {:induction false} ReadsFill(content: nat, sizes: seq<nat>)
    requires content <= CLIENT_RECV_BUFFER
    ensures AfterReads(content, sizes) == Min(content + Received(sizes), CLIENT_RECV_BUFFER)
    decreases |sizes|
  {
    if content < CLIENT_RECV_BUFFER && sizes != [] && sizes[0] != 0 {
      ReadsFill(content + Min(sizes[0], CLIENT_RECV_BUFFER - content), sizes[1..]);
    }
  }

  /** A client leaves exactly if it has closed with room left, quits, or fills its buffer and keeps it full. */
  lemma LeavesMeans(content: nat, input: Input)
    requires content < 4095
    ensures Leaves(content, input) <==>
      (input.closed && content + Received(input.sizes) < 4095) || input.quits
      || (content + Received(input.sizes) >= 4095 && !input.clears)
    ensures !Leaves(content, input) ==>
      AfterCommand(content, input) == if input.clears then 0 else content + Received(input.sizes)
  {
    ReadsFill(content, input.sizes);
  }

  function Reverse<T>(s: seq<T>): seq<T> {
    if s == [] then [] else [s[|s| - 1]] + Reverse(s[..|s| - 1])
  }

  lemma ReverseNone<T>(s: seq<T>)
    requires s == []
    ensures Reverse(s) == []
  {
  }

  lemma ReverseNext<T>(s: seq<T>, n: nat)
    requires n < |s|
    ensures Reverse(s[..n + 1]) == [s[n]] + Reverse(s[..n])
  {
    assert s[..n + 1][..n] == s[..n];
  }

  /** The clients a pass keeps, in order. */
  function Stay<T>(clients: seq<T>, contents: seq<nat>, inputs: seq<Input>): seq<T>
    requires |clients| == |contents| == |inputs|
  {
    if clients == [] then []
    else (if Leaves(contents[0], inputs[0]) then [] else [clients[0]]) + Stay(clients[1..], contents[1..], inputs[1..])
  }

  /** The clients it lets go, last one first. */
  function Go<T>(clients: seq<T>, contents: seq<nat>, inputs: seq<Input>): seq<T>
    requires |clients| == |contents| == |inputs|
  {
    if clients == [] then []
    else Go(clients[1..], contents[1..], inputs[1..]) + if Leaves(contents[0], inputs[0]) then [clients[0]] else []
  }

  /** A pass parts the clients: every one stays or goes, and nobody does both. */
  lemma {:induction false} StayOrGo<T>(clients: seq<T>, contents: seq<nat>, inputs: seq<Input>)
    requires |clients| == |contents| == |inputs|
    ensures multiset(Stay(clients, contents, inputs)) + multiset(Go(clients, contents, inputs)) == multiset(clients)
  {
    if clients != [] {
      StayOrGo(clients[1..], contents[1..], inputs[1..]);
      assert clients == [clients[0]] + clients[1..];
    }
  }

  /** The clients that go are exactly those that leave. */
  lemma {:induction false} WhoGoes<T>(clients: seq<T>, contents: seq<nat>, inputs: seq<Input>, n: nat)
    requires |clients| == |contents| == |inputs| && Distinct(clients) && n < |clients|
    ensures clients[n] in Stay(clients, contents, inputs) <==> !Leaves(contents[n], inputs[n])
    ensures clients[n] in Go(clients, contents, inputs) <==> Leaves(contents[n], inputs[n])
    decreases |clients|
  {
    hide Leaves;
    var stay, go := Stay(clients[1..], contents[1..], inputs[1..]), Go(clients[1..], contents[1..], inputs[1..]);
    if n == 0 {
      StayOrGo(clients[1..], contents[1..], inputs[1..]);
      assert clients[0] !in multiset(clients[1..]);
      assert clients[0] !in multiset(stay) && clients[0] !in multiset(go);
    } else {
      WhoGoes(clients[1..], contents[1..], inputs[1..], n - 1);
      assert clients[n] != clients[0] && clients[1..][n - 1] == clients[n];
    }
  }

  /** The lists when `i` connections have been dealt with, as far as there were free structs. */
  ghost predicate Taken<T>(wasFree: seq<T>, wasActive: seq<T>, free: seq<T>, active: seq<T>,
                           connections: seq<int>, wasSockets: seq<int>, sockets: seq<int>, i: nat)
    requires i <= |connections|
  {
    var n := Min(i, |wasFree|);
    && free == wasFree[n..]
    && active == Reverse(wasFree[..n]) + wasActive
    && sockets == Reverse(connections[..n]) + wasSockets
  }

  lemma TakenNone<T>(free: seq<T>, active: seq<T>, connections: seq<int>, sockets: seq<int>)
    ensures Taken(free, active, free, active, connections, sockets, sockets, 0)
  {
    hide Reverse;
    ReverseNone(free[..0]);
    ReverseNone(connections[..0]);
    assert [] + active == active && [] + sockets == sockets && free[0..] == free;
  }

  lemma TakenOne<T>(wasFree: seq<T>, wasActive: seq<T>, free: seq<T>, active: seq<T>, free': seq<T>, active': seq<T>,
                    connections: seq<int>, wasSockets: seq<int>, sockets: seq<int>, sockets': seq<int>, i: nat)
    requires i < |connections| && Taken(wasFree, wasActive, free, active, connections, wasSockets, sockets, i)
    requires if free == [] then active' == active && free' == [] && sockets' == sockets
             else active' == [free[0]] + active && free' == free[1..] && sockets' == [connections[i]] + sockets
    ensures Taken(wasFree, wasActive, free', active', connections, wasSockets, sockets', i + 1)
    ensures free == [] <==> i >= |wasFree|
  {
    hide Reverse;
    if i < |wasFree| {
      ReverseNext(wasFree, i);
      ReverseNext(connections, i);
    }
  }

  lemma TakenAll<T>(wasFree: seq<T>, wasActive: seq<T>, free: seq<T>, active: seq<T>,
                    connections: seq<int>, wasSockets: seq<int>, sockets: seq<int>)
    requires Taken(wasFree, wasActive, free, active, connections, wasSockets, sockets, |connections|)
    ensures var n := Min(|connections|, |wasFree|);
            && free == wasFree[n..]
            && active == Reverse(wasFree[..n]) + wasActive
            && sockets == Reverse(connections[..n]) + wasSockets
  {
  }

  /** No client is on the list twice, and every buffer has room. */
  ghost predicate Parted<T>(clients: seq<T>, contents: seq<nat>) {
    Distinct(clients) && |contents| == |clients| && forall n :: 0 <= n < |contents| ==> contents[n] < 4095
  }

  /** Those not among `stay` are the clients that closed with room left, quit, or filled their buffer for good. */
  ghost predicate LetGo<T>(clients: seq<T>, contents: seq<nat>, inputs: seq<Input>, stay: seq<T>) {
    |clients| == |contents| == |inputs| && forall n :: 0 <= n < |inputs| ==>
      (clients[n] !in stay <==>
        || (inputs[n].closed && contents[n] + Received(inputs[n].sizes) < 4095) || inputs[n].quits
        || (contents[n] + Received(inputs[n].sizes) >= 4095 && !inputs[n].clears))
  }

  /** Whom a pass lets go, in terms of what the client does. */
  lemma WhoIsLetGo<T>(clients: seq<T>, contents: seq<nat>, inputs: seq<Input>)
    requires Parted(clients, contents) && |inputs| == |clients|
    ensures LetGo(clients, contents, inputs, Stay(clients, contents, inputs))
  {
    hide Leaves, Stay, Go, Received;
    forall n | 0 <= n < |inputs|
      ensures clients[n] !in Stay(clients, contents, inputs) <==>
        || (inputs[n].closed && contents[n] + Received(inputs[n].sizes) < 4095) || inputs[n].quits
        || (contents[n] + Received(inputs[n].sizes) >= 4095 && !inputs[n].clears)
    {
      WhoGoes(clients, contents, inputs, n);
      LeavesMeans(contents[n], inputs[n]);
    }
  }

  lemma PassEnds<T>(was: seq<T>, contents: seq<nat>, inputs: seq<Input>, go: seq<T>, visited: seq<T>, kept: seq<T>,
                    free: seq<T>)
    requires Parted(was, contents) && |inputs| == |was|
    requires Accounts(was, Stay(was, contents, inputs), go, visited, kept, free, [], [], [])
    ensures visited == was && kept == Stay(was, contents, inputs) && free == go && LetGo(was, contents, inputs, kept)
  {
    AccountsClosed(was, Stay(was, contents, inputs), go, visited, kept, free);
    WhoIsLetGo(was, contents, inputs);
  }

  class Client {
    var next: Client?
    var socket: int
    var shouldDisconnect: bool
    var bufferContent: nat
    var isAdmin: bool

    constructor ()
      ensures next == null && bufferContent == 0 && !shouldDisconnect && !isAdmin && socket == 0
    {
      next, socket, shouldDisconnect, bufferContent, isAdmin := null, 0, false, 0, false;
    }

    /** A struct taken into use is set up afresh; the commands start out unprivileged. */
    method Initialize(socket: int)
      modifies this`socket, this`bufferContent, this`shouldDisconnect, this`isAdmin
      ensures this.socket == socket && bufferContent == 0 && !shouldDisconnect && !isAdmin
    {
      this.socket, bufferContent, shouldDisconnect, isAdmin := socket, 0, false, false;
    }

    /** The read loop: returns the last result of `read`, which is 0 once the peer has closed. */
    method ReadAll(input: Input) returns (bytesRead: int)
      requires bufferContent < CLIENT_RECV_BUFFER
      modifies this`bufferContent
      ensures bufferContent == AfterReads(old(bufferContent), input.sizes) <= CLIENT_RECV_BUFFER
      ensures bytesRead == 0 <==> SeesClose(old(bufferContent), input)
    {
      bytesRead := 1;
      var n := 0;
      while bufferContent < CLIENT_RECV_BUFFER && bytesRead > 0
        invariant n <= |input.sizes| && bufferContent <= CLIENT_RECV_BUFFER
        invariant bytesRead > 0 ==>
          AfterReads(old(bufferContent), input.sizes) == AfterReads(bufferContent, input.sizes[n..])
        invariant bytesRead <= 0 ==>
          && bufferContent == AfterReads(old(bufferContent), input.sizes) < CLIENT_RECV_BUFFER
          && bytesRead == if input.closed then 0 else -1
        decreases bytesRead > 0, |input.sizes| - n
      {
        if n < |input.sizes| && input.sizes[n] > 0 {
          bytesRead := Min(input.sizes[n], CLIENT_RECV_BUFFER - bufferContent);
          bufferContent := bufferContent + bytesRead;
          assert input.sizes[n..][1..] == input.sizes[n + 1..];
          n := n + 1;
        } else {
          bytesRead := if input.closed then 0 else -1;
        }
      }
    }

    /** One visit of `handle_clients`, up to the decision whether to let the client go. */
    method Serve(input: Input)
      requires bufferContent < CLIENT_RECV_BUFFER && !shouldDisconnect
      modifies this`bufferContent, this`shouldDisconnect, this`isAdmin
      ensures shouldDisconnect <==> Leaves(old(bufferContent), input)
      ensures bufferContent == AfterCommand(old(bufferContent), input)
      ensures !shouldDisconnect ==> bufferContent < CLIENT_RECV_BUFFER
      ensures shouldDisconnect <==>
        (input.closed && old(bufferContent) + Received(input.sizes) < 4095) || input.quits
        || (old(bufferContent) + Received(input.sizes) >= 4095 && !input.clears)
      ensures !shouldDisconnect ==>
        bufferContent == if input.clears then 0 else old(bufferContent) + Received(input.sizes)
      ensures isAdmin <==> old(isAdmin) || (input.authenticates
                                            && !(input.closed && old(bufferContent) + Received(input.sizes) < 4095))
    {
      LeavesMeans(bufferContent, input);
      ReadsFill(bufferContent, input.sizes);
      var bytesRead := ReadAll(input);
      if bytesRead == 0 {
        shouldDisconnect := true;
      } else {
        // parse_client
        if input.clears { bufferContent := 0; }
        if input.authenticates { isAdmin := true; }
        if input.quits { shouldDisconnect := true; }
        if bufferContent == CLIENT_RECV_BUFFER {
          shouldDisconnect := true;
        }
      }
    }
  }

  /** `head` starts the null-terminated list of exactly the clients in `s`. */
  ghost predicate Chain(head: Client?, s: seq<Client>)
    reads s`next
  {
    if s == [] then head == null
    else
      && head == s[0] && s[|s| - 1].next == null
      && forall i :: 0 <= i < |s| - 1 ==> s[i].next == s[i + 1]
  }

  /** No struct stands twice on the lists, and together they hold exactly the structs of the pool. */
  ghost predicate Partition(active: seq<Client>, free: seq<Client>, pool: seq<Client>) {
    && Distinct(active) && Distinct(free)
    && (forall i, j :: 0 <= i < |active| && 0 <= j < |free| ==> active[i] != free[j])
    && multiset(active) + multiset(free) == multiset(pool)
  }

  lemma {:induction false} PartitionTake(active: seq<Client>, free: seq<Client>, pool: seq<Client>)
    requires Partition(active, free, pool) && free != []
    ensures Partition([free[0]] + active, free[1..], pool)
  {
    assert free == [free[0]] + free[1..];
  }

  lemma {:induction false} PartitionDrop(kept: seq<Client>, current: Client, rest: seq<Client>,
                                         free: seq<Client>, pool: seq<Client>)
    requires Partition(kept + [current] + rest, free, pool)
    ensures Partition(kept + rest, [current] + free, pool)
  {
    var active, less := kept + [current] + rest, kept + rest;
    forall i | 0 <= i < |less| ensures less[i] == active[if i < |kept| then i else i + 1] && less[i] != current {
      assert active[|kept|] == current;
    }
    forall j | 0 <= j < |free| ensures free[j] != current {
      assert active[|kept|] != free[j];
    }
  }

  ghost predicate SocketsOf(clients: seq<Client>, sockets: seq<int>)
    reads clients`socket
  {
    |clients| == |sockets| && forall i :: 0 <= i < |clients| ==> clients[i].socket == sockets[i]
  }

  function SetOf(sockets: seq<int>): set<int> {
    set x | x in sockets
  }

  /** The read set is the listening socket and one socket for each active client, all of them different. */
  ghost predicate Listening(readset: set<int>, serverSocket: int, sockets: seq<int>) {
    readset == SetOf(sockets) + {serverSocket} && |readset| == |sockets| + 1
  }

  lemma {:induction false} SetOfSize(sockets: seq<int>)
    ensures |SetOf(sockets)| <= |sockets|
    ensures |SetOf(sockets)| == |sockets| ==> Distinct(sockets)
  {
    if sockets != [] {
      var n := |sockets| - 1;
      SetOfSize(sockets[..n]);
      assert SetOf(sockets) == SetOf(sockets[..n]) + {sockets[n]};
      if |SetOf(sockets)| == |sockets| {
        forall i, j | 0 <= i < j < |sockets| ensures sockets[i] != sockets[j] {
          assert sockets[..n][i] == sockets[i];
          if j == n { assert sockets[i] in SetOf(sockets[..n]); } else { assert sockets[..n][j] == sockets[j]; }
        }
      }
    }
  }

  /** No two active clients share a socket, and none uses the listening one. */
  lemma {:induction false} SocketsDiffer(readset: set<int>, serverSocket: int, sockets: seq<int>)
    requires Listening(readset, serverSocket, sockets)
    ensures Distinct(sockets) && serverSocket !in sockets
  {
    SetOfSize(sockets);
  }

  lemma {:induction false} ListeningMore(readset: set<int>, serverSocket: int, sockets: seq<int>, socket: int)
    requires Listening(readset, serverSocket, sockets) && socket !in readset
    ensures Listening(readset + {socket}, serverSocket, [socket] + sockets)
  {
    assert SetOf([socket] + sockets) == SetOf(sockets) + {socket};
  }

  lemma {:induction false} ListeningLess(readset: set<int>, serverSocket: int, kept: seq<int>, socket: int, rest: seq<int>)
    requires Listening(readset, serverSocket, kept + [socket] + rest)
    ensures Listening(readset - {socket}, serverSocket, kept + rest)
  {
    var sockets := kept + [socket] + rest;
    assert SetOf(sockets) == SetOf(kept + rest) + {socket};
    SocketsDiffer(readset, serverSocket, sockets);
    assert sockets[|kept|] == socket;
    forall x | x in kept + rest ensures x != socket {
      var i :| 0 <= i < |kept + rest| && (kept + rest)[i] == x;
      assert sockets[if i < |kept| then i else i + 1] == x;
    }
  }

  /** What has been visited and where it went, against what the whole pass is to do. */
  ghost predicate Accounts<T>(was: seq<T>, stay: seq<T>, go: seq<T>, visited: seq<T>, kept: seq<T>, free: seq<T>,
                              rest: seq<T>, left: seq<nat>, ahead: seq<Input>)
    requires |rest| == |left| == |ahead|
  {
    visited + rest == was && kept + Stay(rest, left, ahead) == stay && Go(rest, left, ahead) + free == go
  }

  lemma AccountsOpened<T>(was: seq<T>, free: seq<T>, contents: seq<nat>, inputs: seq<Input>)
    requires |was| == |contents| == |inputs|
    ensures Accounts(was, Stay(was, contents, inputs), Go(was, contents, inputs) + free, [], [], free, was, contents, inputs)
  {
    assert [] + Stay(was, contents, inputs) == Stay(was, contents, inputs);
  }

  lemma AccountsClosed<T>(was: seq<T>, stay: seq<T>, go: seq<T>, visited: seq<T>, kept: seq<T>, free: seq<T>)
    requires Accounts(was, stay, go, visited, kept, free, [], [], [])
    ensures visited == was && kept == stay && free == go
  {
  }

  lemma {:induction false} Ahead<T>(was: seq<T>, stay: seq<T>, go: seq<T>, visited: seq<T>, kept: seq<T>, free: seq<T>,
                                    rest: seq<T>, left: seq<nat>, ahead: seq<Input>)
    requires |rest| == |left| == |ahead| > 0 && Accounts(was, stay, go, visited, kept, free, rest, left, ahead)
    ensures var leaves := Leaves(left[0], ahead[0]);
            Accounts(was, stay, go, visited + [rest[0]], if leaves then kept else kept + [rest[0]],
                     if leaves then [rest[0]] + free else free, rest[1..], left[1..], ahead[1..])
  {
    assert visited + [rest[0]] + rest[1..] == was;
    if Leaves(left[0], ahead[0]) {
      assert [] + Stay(rest[1..], left[1..], ahead[1..]) == Stay(rest[1..], left[1..], ahead[1..]);
      assert Go(rest[1..], left[1..], ahead[1..]) + ([rest[0]] + free) == Go(rest, left, ahead) + free;
    } else {
      assert Go(rest[1..], left[1..], ahead[1..]) + [] == Go(rest[1..], left[1..], ahead[1..]);
    }
  }

  ghost predicate ContentsOf(clients: seq<Client>, contents: seq<nat>)
    reads clients`bufferContent
  {
    |clients| == |contents| && forall i :: 0 <= i < |clients| ==> clients[i].bufferContent == contents[i]
  }

  class Server {
    const pool: seq<Client>
    ghost const structs: set<Client>  // the structs of the pool
    const serverSocket: int
    var freeClients: Client?
    var activeClients: Client?
    var readset: set<int>
    ghost var active: seq<Client>
    ghost var free: seq<Client>
    ghost var sockets: seq<int>

    ghost predicate Within(clients: seq<Client>) {
      forall i :: 0 <= i < |clients| ==> clients[i] in structs
    }

    ghost predicate Lists()
      reads this`freeClients, this`activeClients, this`active, this`free, structs`next
    {
      && Within(active) && Within(free)
      && |pool| == MAX_CLIENTS && Partition(active, free, pool)
      && Chain(activeClients, active) && Chain(freeClients, free)
    }

    /** What holds between two rounds of the IO loop. */
    ghost predicate Valid()
      reads this, structs
    {
      && Lists()
      && SocketsOf(active, sockets) && Listening(readset, serverSocket, sockets)
      && Ready(active)
    }

    ghost predicate Ready(clients: seq<Client>)
      reads clients`bufferContent, clients`shouldDisconnect
    {
      forall i :: 0 <= i < |clients| ==> clients[i].bufferContent < CLIENT_RECV_BUFFER && !clients[i].shouldDisconnect
    }

    constructor (serverSocket: int)
      ensures Valid() && this.serverSocket == serverSocket && active == [] && free == pool
      ensures forall c :: c in pool ==> fresh(c)
    {
      this.serverSocket := serverSocket;
      var clients: seq<Client> := [];
      while |clients| < MAX_CLIENTS
        invariant |clients| <= MAX_CLIENTS && Distinct(clients)
        invariant forall c :: c in clients ==> fresh(c) && c.next == null && c.bufferContent == 0
      {
        var c := new Client();
        clients := clients + [c];
      }
      pool := clients;
      freeClients, activeClients := clients[0], null;
      readset := {serverSocket};
      active, free, sockets := [], clients, [];
      structs := set c | c in clients;
      new;
      var i := 0;
      while i < MAX_CLIENTS - 1
        invariant 0 <= i <= MAX_CLIENTS - 1
        invariant forall k :: 0 <= k < i ==> pool[k].next == pool[k + 1]
        invariant forall k :: i <= k < MAX_CLIENTS ==> pool[k].next == null
        invariant pool == clients && freeClients == pool[0] && activeClients == null
        invariant readset == {serverSocket} && active == [] && free == pool && sockets == []
      {
        pool[i].next := pool[i + 1];
        i := i + 1;
      }
    }

    /** Move the first free struct to the front of the active list. */
    method TakeFree() returns (current: Client)
      requires Lists() && free != []
      modifies this`freeClients, this`activeClients, this`active, this`free, structs`next
      ensures Lists()
      ensures current == old(free)[0] && active == [current] + old(active) && free == old(free)[1..]
    {
      current := freeClients;
      freeClients := current.next;
      current.next := activeClients;
      activeClients := current;
      PartitionTake(active, free, pool);
      active, free := [current] + active, free[1..];
    }

    /** Set up the struct just taken for its connection. */
    method Enlist(current: Client, socket: int, ghost others: seq<Client>)
      requires Lists() && active == [current] + others && socket !in readset
      requires SocketsOf(others, sockets) && Listening(readset, serverSocket, sockets) && Ready(others)
      modifies this`readset, this`sockets
      modifies current`socket, current`bufferContent, current`shouldDisconnect, current`isAdmin
      ensures Valid() && readset == old(readset) + {socket} && sockets == [socket] + old(sockets)
      ensures current.socket == socket && current.bufferContent == 0 && !current.isAdmin
    {
      hide Listening, Chain;
      forall i | 0 <= i < |others| ensures others[i] != current {
        assert active[0] != active[i + 1];
      }
      ListeningMore(readset, serverSocket, sockets, socket);
      readset := readset + {socket};
      sockets := [socket] + sockets;
      current.Initialize(socket);
    }

    /** The body of the accept loop for one accepted connection. */
    method Accept(socket: int)
      requires Valid() && socket !in readset
      modifies this, structs`next, structs`socket, structs`bufferContent, structs`shouldDisconnect, structs`isAdmin
      ensures Valid()
      ensures if old(free) == []
              then active == old(active) && free == [] && readset == old(readset) && sockets == old(sockets) else
                && active == [old(free)[0]] + old(active) && free == old(free)[1..]
                && readset == old(readset) + {socket} && sockets == [socket] + old(sockets)
                && active[0].socket == socket && active[0].bufferContent == 0 && !active[0].isAdmin
    {
      if freeClients == null {
        // the connection is closed again
        return;
      }
      ghost var was := active;
      var current := TakeFree();
      Enlist(current, socket, was);
    }

    /**
     The accept loop over the connections that are waiting. As many as there are free structs get one,
     in list order; the rest are refused.
     */
    method HandleServer(connections: seq<int>)
      requires Valid()
      requires forall i :: 0 <= i < |connections| ==> connections[i] !in readset
      requires forall i, j :: 0 <= i < j < |connections| && i < |free| ==> connections[i] != connections[j]
      modifies this, structs`next, structs`socket, structs`bufferContent, structs`shouldDisconnect, structs`isAdmin
      ensures Valid()
      ensures var n := Min(|connections|, |old(free)|);
              && free == old(free)[n..]
              && active == Reverse(old(free)[..n]) + old(active)
              && sockets == Reverse(connections[..n]) + old(sockets)
    {
      ghost var wasFree, wasActive, wasSockets := free, active, sockets;
      TakenNone(wasFree, wasActive, connections, wasSockets);
      hide *;
      var i := 0;
      while i < |connections|
        invariant i <= |connections| && Valid()
        invariant Taken(wasFree, wasActive, free, active, connections, wasSockets, sockets, i)
        invariant forall j :: i <= j < |connections| ==> connections[j] !in readset
      {
        ghost var free0, active0, sockets0 := free, active, sockets;
        Accept(connections[i]);
        TakenOne(wasFree, wasActive, free0, active0, free, active, connections, wasSockets, sockets0, sockets, i);
        i := i + 1;
      }
      TakenAll(wasFree, wasActive, free, active, connections, wasSockets, sockets);
    }

    /** Lead the active list around `current`, the successor of `prev`. */
    method Bypass(prev: Client?, current: Client, ghost kept: seq<Client>, ghost rest: seq<Client>)
      requires Chain(activeClients, kept + [current] + rest) && Distinct(kept + [current] + rest)
      requires prev == if kept == [] then null else kept[|kept| - 1]
      requires prev != null ==> prev in structs
      modifies this`activeClients, structs`next
      ensures Chain(activeClients, kept + rest) && current.next == if rest == [] then null else rest[0]
      ensures forall c :: c in structs && c != prev ==> c.next == old(c.next)
    {
      hide Distinct;
      ghost var was, active := kept + [current] + rest, kept + rest;
      SplitApart(kept, current, rest);
      assert was[|kept|] == current && current.next == (if rest == [] then null else was[|kept| + 1]);
      assert kept != [] ==> was[|kept| - 1] == prev;
      if prev != null {
        prev.next := current.next;
      }
      if activeClients == current {
        activeClients := current.next;
      }
      forall i | 0 <= i < |active| - 1 ensures active[i].next == active[i + 1] {
        var n := if i < |kept| then i else i + 1;
        assert active[i] == was[n];
        if i != |kept| - 1 {
          assert active[i + 1] == was[n + 1];
        }
      }
    }

    lemma SplitApart(kept: seq<Client>, current: Client, rest: seq<Client>)
      requires Distinct(kept + [current] + rest)
      ensures current !in kept && current !in rest
      ensures kept != [] ==> kept[|kept| - 1] !in kept[..|kept| - 1] && kept[|kept| - 1] !in rest
    {
      var was := kept + [current] + rest;
      assert was[|kept|] == current;
      assert forall i :: 0 <= i < |kept| ==> kept[i] == was[i];
      assert forall i :: 0 <= i < |rest| ==> rest[i] == was[|kept| + 1 + i];
    }

    /** Put `current` at the front of the free list. */
    method PutFree(current: Client, ghost free: seq<Client>)
      requires Chain(freeClients, free) && current !in free
      modifies this`freeClients, current`next
      ensures Chain(freeClients, [current] + free)
    {
      current.next := freeClients;
      freeClients := current;
    }

    /** Take `current`, the successor of `prev`, off the active list and put it on the free list. */
    method Unlink(prev: Client?, current: Client, ghost kept: seq<Client>, ghost rest: seq<Client>) returns (next: Client?)
      requires Lists() && active == kept + [current] + rest
      requires prev == if kept == [] then null else kept[|kept| - 1]
      modifies this`activeClients, this`freeClients, this`active, this`free, structs`next
      ensures Lists() && active == kept + rest && free == [current] + old(free)
      ensures next == if rest == [] then null else rest[0]
    {
      hide Lists, Chain, Partition, Distinct, Within;
      Apart(kept, current, rest);
      PartitionDrop(kept, current, rest, free, pool);
      Bypass(prev, current, kept, rest);
      next := current.next;
      PutFree(current, free);
      active, free := kept + rest, [current] + free;
      Together();
    }

    lemma Together()
      requires |pool| == MAX_CLIENTS && Partition(active, free, pool) && Within(active) && Within(free)
      requires Chain(activeClients, active) && Chain(freeClients, free)
      ensures Lists()
    {
    }

    lemma Apart(kept: seq<Client>, current: Client, rest: seq<Client>)
      requires Lists() && active == kept + [current] + rest
      ensures |pool| == MAX_CLIENTS && Partition(kept + [current] + rest, free, pool)
      ensures Chain(activeClients, kept + [current] + rest) && Chain(freeClients, free)
      ensures Distinct(kept + [current] + rest) && current !in free && current !in kept + rest
      ensures kept != [] ==> kept[|kept| - 1] !in free && kept[|kept| - 1] in structs
      ensures current in structs && Within(kept + rest) && Within([current] + free)
    {
      SplitApart(kept, current, rest);
      assert active[|kept|] == current;
      assert kept != [] ==> active[|kept| - 1] == kept[|kept| - 1];
      forall i | 0 <= i < |kept + rest| ensures (kept + rest)[i] in structs {
        assert (kept + rest)[i] == active[if i < |kept| then i else i + 1];
      }
    }

    /** Close the connection of the active client at position `n`. */
    method CloseSocket(current: Client, ghost n: nat)
      requires SocketsOf(active, sockets) && Listening(readset, serverSocket, sockets)
      requires n < |active| && active[n] == current
      modifies this`readset, this`sockets
      ensures Listening(readset, serverSocket, sockets) && readset == old(readset) - {current.socket}
      ensures sockets == old(sockets)[..n] + old(sockets)[n + 1..]
    {
      assert sockets == sockets[..n] + [current.socket] + sockets[n + 1..];
      ListeningLess(readset, serverSocket, sockets[..n], current.socket, sockets[n + 1..]);
      readset := readset - {current.socket};
      sockets := sockets[..n] + sockets[n + 1..];
    }

    /** Close the connection of `current` and return its struct to the free list. */
    method Disconnect(prev: Client?, current: Client, ghost kept: seq<Client>, ghost rest: seq<Client>)
      returns (next: Client?)
      requires Lists() && active == kept + [current] + rest
      requires SocketsOf(active, sockets) && Listening(readset, serverSocket, sockets)
      requires prev == if kept == [] then null else kept[|kept| - 1]
      modifies this, structs`next
      ensures Lists() && active == kept + rest && free == [current] + old(free)
      ensures SocketsOf(active, sockets) && Listening(readset, serverSocket, sockets)
      ensures next == if rest == [] then null else rest[0]
    {
      hide Lists, Listening, Partition;
      ghost var was, wasSockets := active, sockets;
      CloseSocket(current, |kept|);
      next := Unlink(prev, current, kept, rest);
      forall i | 0 <= i < |active| ensures active[i].socket == sockets[i] {
        var n := if i < |kept| then i else i + 1;
        assert active[i] == was[n] && sockets[i] == wasSockets[n];
      }
    }

    /** What holds while a pass is under way, with `kept` behind it and `rest` still to visit. */
    ghost predicate Passing(prev: Client?, current: Client?, kept: seq<Client>, rest: seq<Client>)
      reads this, structs
      ensures Passing(prev, current, kept, rest) ==> (rest == [] <==> current == null) && (rest != [] ==> current == rest[0])
      ensures Passing(prev, current, kept, rest) && rest == [] ==> active == kept && Valid()
    {
      && Lists() && SocketsOf(active, sockets) && Listening(readset, serverSocket, sockets) && Ready(active)
      && active == kept + rest
      && prev == (if kept == [] then null else kept[|kept| - 1])
      && current == if rest == [] then null else rest[0]
    }

    lemma PassOpens(contents: seq<nat>)
      requires Valid() && ContentsOf(active, contents)
      ensures Passing(null, activeClients, [], active) && Parted(active, contents)
    {
      assert forall n :: 0 <= n < |active| ==> active[n].bufferContent == contents[n];
      assert [] + active == active;
    }

    /** Visit one client and go on to the next. */
    method Visit(prev: Client?, current: Client, input: Input,
                 ghost kept: seq<Client>, ghost rest: seq<Client>, ghost left: seq<nat>)
      returns (prev': Client?, next: Client?, ghost kept': seq<Client>)
      requires rest != [] && Passing(prev, current, kept, rest) && ContentsOf(rest, left)
      modifies this, structs`next, structs`bufferContent, structs`shouldDisconnect, structs`isAdmin
      ensures kept' == if Leaves(left[0], input) then kept else kept + [current]
      ensures free == if Leaves(left[0], input) then [current] + old(free) else old(free)
      ensures Passing(prev', next, kept', rest[1..]) && ContentsOf(rest[1..], left[1..])
    {
      hide Listening, SocketsOf, Leaves, Partition, Lists;
      ghost var was := active;
      assert Ready(was);
      hide Ready;
      assert was[|kept|] == current && kept + [current] + rest[1..] == was && (kept + [current]) + rest[1..] == was;
      Successor(kept, current, rest[1..]);
      ServeOne(current, input);
      if current.shouldDisconnect {
        next := Disconnect(prev, current, kept, rest[1..]);
        kept', prev' := kept, prev;
      } else {
        kept', prev', next := kept + [current], current, current.next;
      }
      StillReady(was, kept, current, rest[1..]);
    }

    /** The clients left after a visit are ready: the client visited is, or it is gone. */
    lemma StillReady(was: seq<Client>, kept: seq<Client>, current: Client, others: seq<Client>)
      requires was == kept + [current] + others
      requires active == if current.shouldDisconnect then kept + others else was
      requires forall i :: 0 <= i < |kept| ==> kept[i] != current
      requires forall i :: 0 <= i < |others| ==> others[i] != current
      requires ReadyBut(was, current)
      ensures Ready(active)
    {
      forall i | 0 <= i < |active| ensures active[i].bufferContent < CLIENT_RECV_BUFFER && !active[i].shouldDisconnect {
        assert active != was ==> active[i] == was[if i < |kept| then i else i + 1];
      }
    }

    /** All are ready, with the exception of `current` if it is to be let go. */
    ghost predicate ReadyBut(clients: seq<Client>, current: Client)
      reads clients`bufferContent, clients`shouldDisconnect, current`shouldDisconnect
    {
      forall i :: 0 <= i < |clients| && (clients[i] == current ==> !current.shouldDisconnect) ==>
        clients[i].bufferContent < CLIENT_RECV_BUFFER && !clients[i].shouldDisconnect
    }

    lemma Successor(kept: seq<Client>, current: Client, others: seq<Client>)
      requires Lists() && active == kept + [current] + others
      ensures current.next == if others == [] then null else others[0]
      ensures current in structs
      ensures forall i :: 0 <= i < |kept| ==> kept[i] != current
      ensures forall i :: 0 <= i < |others| ==> others[i] != current
    {
      assert active[|kept|] == current && (others != [] ==> active[|kept| + 1] == others[0]);
      OthersDiffer(active, free, kept, current, others);
    }

    lemma OthersDiffer(was: seq<Client>, free: seq<Client>, kept: seq<Client>, current: Client, others: seq<Client>)
      requires Partition(was, free, pool) && was == kept + [current] + others
      ensures forall i :: 0 <= i < |kept| ==> kept[i] != current
      ensures forall i :: 0 <= i < |others| ==> others[i] != current
    {
      assert was[|kept|] == current;
      forall i | 0 <= i < |kept| ensures kept[i] != current {
        assert was[i] == kept[i];
      }
      forall i | 0 <= i < |others| ensures others[i] != current {
        assert was[|kept| + 1 + i] == others[i];
      }
    }

    method ServeOne(current: Client, input: Input)
      requires Ready(active) && current in active
      modifies current`bufferContent, current`shouldDisconnect, current`isAdmin
      ensures current.shouldDisconnect <==> Leaves(old(current.bufferContent), input)
      ensures ReadyBut(active, current)
    {
      current.Serve(input);
    }

    /**
     One pass over the active list, whose clients' buffers hold `contents`. Every client active at the
     start is visited exactly once, in list order; the survivors keep their order and exactly the
     clients that leave move to the free list.
     */
    method HandleClients(inputs: seq<Input>, ghost contents: seq<nat>) returns (ghost visited: seq<Client>)
      requires Valid() && ContentsOf(active, contents) && |inputs| == |active|
      modifies this, structs`next, structs`bufferContent, structs`shouldDisconnect, structs`isAdmin
      ensures Valid()
      ensures visited == old(active)
      ensures active == Stay(old(active), contents, inputs)
      ensures free == Go(old(active), contents, inputs) + old(free)
      ensures LetGo(old(active), contents, inputs, active)
    {
      hide *;
      PassOpens(contents);
      AccountsOpened(active, free, contents, inputs);
      ghost var stay, go := Stay(active, contents, inputs), Go(active, contents, inputs) + free;
      ghost var was := active;
      ghost var kept: seq<Client>, rest, left := [], active, contents;
      visited := [];
      var prev: Client?, current := null, activeClients;
      var ahead := inputs;
      while current != null
        invariant Passing(prev, current, kept, rest)
        invariant |rest| == |left| == |ahead|
        invariant Accounts(was, stay, go, visited, kept, free, rest, left, ahead)
        invariant ContentsOf(rest, left)
        decreases |rest|
      {
        var client: Client := current;
        Ahead(was, stay, go, visited, kept, free, rest, left, ahead);
        visited := visited + [client];
        prev, current, kept := Visit(prev, client, ahead[0], kept, rest, left);
        rest, left, ahead := rest[1..], left[1..], ahead[1..];
      }
      assert rest == [] && left == [] && ahead == [];
      PassEnds(was, contents, inputs, go, visited, kept, free);
    }
  }
}
