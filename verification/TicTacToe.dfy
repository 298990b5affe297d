/**
 The tic-tac-toe server: clients, the games they share, and the commands that change them. Sending to
 a client may fail, which marks it as disconnecting; what is sent is not recorded.
 */
module TicTacToe {
  import opened GameTypes
  import opened TicTacToeRules

  datatype ClientState = CONNECTED | DISCONNECTING | DISCONNECTED | AUTHENTICATED

  /** A parsed command line; the coordinates have been through `to_i`. */
  datatype Command =
    | CreateUser(args: seq<string>)
    | Login(args: seq<string>)
    | Quit
    | Play(args: seq<string>)
    | Place(coords: seq<int>)
    | Remove(coords: seq<int>)
    | Unknown

  class TTTClient {
    var state: ClientState
    var userName: Option<string>
    var game: TTTGame?
    var hasSocket: bool

    constructor ()
      ensures state == CONNECTED && userName == None && game == null && hasSocket
    {
      state, userName, game, hasSocket := CONNECTED, None, null, true;
    }

    method Send()
      modifies this`state
      ensures state == old(state) || (state == DISCONNECTING && hasSocket)
    {
      if hasSocket && state != DISCONNECTING {
        if * {
          state := DISCONNECTING;
        }
      }
    }
  }

  class TTTGame {
    const player1: TTTClient
    const player2: TTTClient
    var current: TTTClient
    var grid: Grid

    ghost predicate Valid()
      reads this
    {
      player1 != player2 && (current == player1 || current == player2) && Position(grid, current == player1)
    }

    constructor (player1: TTTClient, player2: TTTClient)
      requires player1 != player2
      modifies player1`state, player2`state
      ensures Valid() && this.player1 == player1 && this.player2 == player2
      ensures current == player1 && grid == EMPTY_GRID
      ensures player1.state in {old(player1.state), DISCONNECTING} && player2.state in {old(player2.state), DISCONNECTING}
    {
      this.player1, this.player2, current, grid := player1, player2, player1, EMPTY_GRID;
      EmptyPosition();
      new;
      SendBoth();
    }

    method SendBoth()
      modifies player1`state, player2`state
      ensures player1.state in {old(player1.state), DISCONNECTING} && player2.state in {old(player2.state), DISCONNECTING}
    {
      player1.Send();
      player2.Send();
    }

    method CountToken(token: char) returns (count: nat)
      ensures count == Count(grid, token)
    {
      count := 0;
      var i := 0;
      assert grid[0..] == grid;
      while i < |grid|
        invariant i <= |grid| && Count(grid, token) == count + Count(grid[i..], token)
      {
        assert grid[i..][1..] == grid[i + 1..];
        if grid[i] == token { count := count + 1; }
        i := i + 1;
      }
    }

    function UserToken(user: TTTClient): char {
      if user == player1 then 'O' else 'X'
    }

    function CurrentUserToken(): char
      reads this
    {
      UserToken(current)
    }

    /** The other player. */
    function Other(player: TTTClient): TTTClient {
      if player == player1 then player2 else player1
    }

    function NextUser(): TTTClient
      reads this
    {
      if current == player1 then player2 else player1
    }

    method HasTokenWon(token: char) returns (won: bool)
      requires |grid| == 9
      ensures won == Line(grid, token) == HasStraight(grid, token)
    {
      LineIsStraight(grid, token);
      hide HasStraight;
      var i := 0;
      while i < 3
        invariant 0 <= i <= 3
        invariant forall k :: 1 <= k <= i ==> !Column(grid, k, token) && !RowOf(grid, k, token)
      {
        if At(grid, i + 1, 1) == token && At(grid, i + 1, 2) == token && At(grid, i + 1, 3) == token {
          assert Column(grid, i + 1, token);
          return true;
        }
        if At(grid, 1, i + 1) == token && At(grid, 2, i + 1) == token && At(grid, 3, i + 1) == token {
          assert RowOf(grid, i + 1, token);
          return true;
        }
        i := i + 1;
      }
      if At(grid, 1, 1) == token && At(grid, 2, 2) == token && At(grid, 3, 3) == token { return true; }
      if At(grid, 3, 1) == token && At(grid, 2, 2) == token && At(grid, 1, 3) == token { return true; }
      won := false;
    }

    /** `remove`, called when the player to move has three tokens. */
    method RemoveToken(x: int, y: int)
      requires Valid() && Count(grid, CurrentUserToken()) == 3
      modifies this`grid, player1`state, player2`state
      ensures Valid()
      ensures player1.state in {old(player1.state), DISCONNECTING} && player2.state in {old(player2.state), DISCONNECTING}
      ensures if 1 <= x <= 3 && 1 <= y <= 3 && At(old(grid), x, y) == CurrentUserToken()
              then grid == old(grid)[(y - 1) * 3 + (x - 1) := ' '] else grid == old(grid)
    {
      if x >= 1 && x < 4 && y >= 1 && y < 4 {
        var idx := (y - 1) * 3 + (x - 1);
        if grid[idx] == CurrentUserToken() {
          RemoveKeeps(grid, idx, current == player1);
          grid := grid[idx := ' '];
          SendBoth();
        } else {
          current.Send();
        }
      } else {
        current.Send();
      }
    }

    /** The move puts a token on a free field. */
    predicate IsMove(grid: Grid, x: int, y: int)
      requires |grid| == 9
    {
      1 <= x <= 3 && 1 <= y <= 3 && At(grid, x, y) == ' '
    }

    /**
     `place`, called when the player to move has fewer than three tokens. A winning move ends the game
     for both players; any other move hands the turn over.
     */
    method PlaceToken(x: int, y: int)
      requires Valid() && Count(grid, CurrentUserToken()) != 3
      modifies this`grid, this`current, player1`state, player2`state, player1`game, player2`game
      ensures player1.state in {old(player1.state), DISCONNECTING} && player2.state in {old(player2.state), DISCONNECTING}
      ensures !IsMove(old(grid), x, y) ==> grid == old(grid)
      ensures IsMove(old(grid), x, y) ==> grid == old(grid)[(y - 1) * 3 + (x - 1) := old(CurrentUserToken())]
      ensures if IsMove(old(grid), x, y) && Line(grid, old(CurrentUserToken()))
              then player1.game == null && player2.game == null && current == old(current)
              else Valid() && player1.game == old(player1.game) && player2.game == old(player2.game)
                   && current == if IsMove(old(grid), x, y) then old(NextUser()) else old(current)
    {
      if x >= 1 && x < 4 && y >= 1 && y < 4 {
        var idx := (y - 1) * 3 + (x - 1);
        if grid[idx] == ' ' {
          ghost var was := grid;
          grid := grid[idx := CurrentUserToken()];
          SendBoth();
          var won := HasTokenWon(CurrentUserToken());
          if won {
            player1.game := null;
            player2.game := null;
          } else {
            PlaceKeeps(was, idx, current == player1);
            current := NextUser();
            SendBoth();
          }
        } else {
          current.Send();
        }
      } else {
        current.Send();
      }
    }

    method Disconnected(player: TTTClient)
      requires player1 != player2 && (player == player1 || player == player2)
      modifies player1`state, player2`state, player1`game, player2`game
      ensures var other := if player == player1 then player2 else player1;
              && other.game == null && player.game == old(player.game) && player.state == old(player.state)
              && (other.state == old(other.state) || other.state == DISCONNECTING)
    {
      var other := if player == player2 then player1 else player2;
      other.Send();
      other.game := null;
    }
  }

  class TTTServer {
    var clients: seq<TTTClient>    // the values of @clients, in insertion order
    ghost var games: set<TTTGame>  // the games the registered clients hold

    /** A registered client's game is legal, the client plays in it, and the opponent plays the same one. */
    ghost predicate Paired(c: TTTClient)
      reads this`clients, this`games, clients`game, games, c`game
    {
      c.game != null ==>
        && c.game in games && c.game.Valid()
        && (c == c.game.player1 || c == c.game.player2)
        && c.game.player1 in clients && c.game.player2 in clients
        && c.game.player1.game == c.game == c.game.player2.game
    }

    ghost predicate Valid()
      reads this`clients, this`games, clients`game, games
    {
      && (forall i, j :: 0 <= i < j < |clients| ==> clients[i] != clients[j])
      && (forall i :: 0 <= i < |clients| ==> Paired(clients[i]))
    }

    constructor ()
      ensures Valid() && clients == [] && games == {}
    {
      clients, games := [], {};
    }

    /** The position of the first client from `i` on with this user name, or the number of clients. */
    function NamedFrom(i: nat, name: string): (k: nat)
      requires i <= |clients|
      reads this`clients, clients`userName
      ensures i <= k <= |clients| && (k < |clients| ==> clients[k].userName == Some(name))
      decreases |clients| - i
    {
      if i == |clients| || clients[i].userName == Some(name) then i else NamedFrom(i + 1, name)
    }

    method ClientByName(name: string) returns (c: TTTClient?)
      ensures c == if NamedFrom(0, name) < |clients| then clients[NamedFrom(0, name)] else null
    {
      var i := 0;
      while i < |clients|
        invariant i <= |clients| && NamedFrom(0, name) == NamedFrom(i, name)
      {
        if clients[i].userName == Some(name) {
          return clients[i];
        }
        i := i + 1;
      }
      c := null;
    }

    /** A new connection. */
    method Accept() returns (c: TTTClient)
      requires Valid()
      modifies this`clients
      ensures Valid() && fresh(c) && clients == old(clients) + [c] && c.game == null
    {
      c := new TTTClient();
      clients := clients + [c];
    }

    /** The answer of the user service to a log-in, delivered to a registered client. */
    method Authenticated(c: TTTClient, name: string)
      requires Valid() && c in clients
      modifies c`state, c`userName
      ensures Valid() && c.userName == Some(name)
    {
      c.userName := Some(name);
      c.state := AUTHENTICATED;
      c.Send();
    }

    /** A client whose state has changed is disconnecting now. */
    twostate predicate OnlyDropped()
      reads this`clients, clients
    {
      && clients == old(clients)
      && forall c :: c in clients ==> c.state == old(c.state) || c.state == DISCONNECTING
    }

    /** A new game has begun exactly if both clients were free; nobody else's game has changed. */
    twostate predicate Played(self: TTTClient, name: string, started: bool)
      reads this, clients, games, self
    {
      var k := NamedFrom(0, name);
      && OnlyDropped()
      && started == (old(self.game) == null && self.userName != Some(name)
                     && k < |clients| && old(clients[k].game) == null)
      && (started ==>
            && self.game != null && fresh(self.game) && self.game in games && clients[k].game == self.game
            && self.game.player1 == self && self.game.player2 == clients[k] && self.game.grid == EMPTY_GRID)
      && (forall c :: c in clients && (started ==> c != self && c != clients[k]) ==> c.game == old(c.game))
      && (forall g :: g in old(games) ==> g in games && g.grid == old(g.grid) && g.current == old(g.current))
    }

    /** `play`: a new game for two registered clients, neither of whom has one. */
    method PlayAgainst(self: TTTClient, name: string) returns (started: bool)
      requires Valid() && self in clients
      modifies this`games, clients`state, clients`game
      ensures Valid() && Played(self, name, started)
    {
      hide Valid, Paired;
      started := false;
      if self.game != null {
        self.Send();
      } else if self.userName == Some(name) {
        self.Send();
      } else {
        var other := ClientByName(name);
        if other == null {
          self.Send();
        } else if other.game != null {
          self.Send();
        } else {
          StartGame(self, other);
          started := true;
        }
      }
    }

    method StartGame(self: TTTClient, other: TTTClient)
      requires Valid() && self in clients && other in clients && self != other
      requires self.game == null && other.game == null
      modifies this`games, self`state, other`state, self`game, other`game
      ensures Valid() && self.game != null && fresh(self.game) && other.game == self.game
      ensures games == old(games) + {self.game}
      ensures self.state in {old(self.state), DISCONNECTING} && other.state in {old(other.state), DISCONNECTING}
      ensures self.game.player1 == self && self.game.player2 == other && self.game.grid == EMPTY_GRID
    {
      hide Position;
      var game := new TTTGame(self, other);
      other.game := game;
      self.game := game;
      games := games + {game};
    }

    /** The move has been made if the guards allow it; a winning move has ended the game for both players. */
    twostate predicate Placed(c: TTTClient, coords: seq<int>)
      reads this, clients, games
    {
      var g := old(c.game);
      var acts := g != null && old(g.current) == c && old(Count(g.grid, g.CurrentUserToken())) != 3 && |coords| == 2;
      && games == old(games) && OnlyDropped()
      && (acts ==> g in games && |old(g.grid)| == 9)
      && (acts ==>
            var moved, token := g.IsMove(old(g.grid), coords[0], coords[1]), old(g.CurrentUserToken());
            && g.grid == (if moved then old(g.grid)[(coords[1] - 1) * 3 + (coords[0] - 1) := token] else old(g.grid))
            && |g.grid| == 9
            && g.current == (if moved && !Line(g.grid, token) then old(g.NextUser()) else old(g.current)))
      && (forall p :: p in clients ==>
            p.game == if acts && g == old(p.game) && g.IsMove(old(g.grid), coords[0], coords[1])
                         && Line(g.grid, old(g.CurrentUserToken())) then null else old(p.game))
      && (forall h :: h in games && !(acts && h == g) ==> h.grid == old(h.grid) && h.current == old(h.current))
    }

    method PlaceFor(c: TTTClient, coords: seq<int>)
      requires Valid() && c in clients && c.game != null && c.game.current == c
      requires Count(c.game.grid, c.game.CurrentUserToken()) != 3 && |coords| == 2
      modifies clients`state, clients`game, games`grid, games`current
      ensures Valid() && Placed(c, coords)
    {
      assert c.game in games && |c.game.grid| == 9;
      hide Position, Line;
      c.game.PlaceToken(coords[0], coords[1]);
    }

    /** A 'place' command. It acts only for the player whose turn it is, with fewer than three tokens. */
    method PlaceCommand(c: TTTClient, coords: seq<int>)
      requires Valid() && c in clients
      modifies clients`state, clients`game, games`grid, games`current
      ensures Valid() && Placed(c, coords)
    {
      hide Valid, Paired, Line;
      var g := c.game;
      if g == null {
        c.Send();
      } else if g.current != c {
        c.Send();
      } else {
        var count := g.CountToken(g.CurrentUserToken());
        if count == 3 {
          c.Send();
        } else if |coords| != 2 {
          c.Send();
        } else {
          PlaceFor(c, coords);
        }
      }
    }

    /** The token has been taken away if the guards allow it. */
    twostate predicate Removed(c: TTTClient, coords: seq<int>)
      reads this, clients, games
    {
      && games == old(games) && OnlyDropped()
      && (forall p :: p in clients ==> p.game == old(p.game))
      && (forall g :: g in games ==>
            && g.current == old(g.current)
            && g.grid == if g == old(c.game) && old(g.current) == c && old(Count(g.grid, g.CurrentUserToken())) == 3
                            && |coords| == 2 && 1 <= coords[0] <= 3 && 1 <= coords[1] <= 3
                            && |old(g.grid)| == 9 && At(old(g.grid), coords[0], coords[1]) == old(g.CurrentUserToken())
                         then old(g.grid)[(coords[1] - 1) * 3 + (coords[0] - 1) := ' '] else old(g.grid))
    }

    method RemoveFor(c: TTTClient, coords: seq<int>)
      requires Valid() && c in clients && c.game != null && c.game.current == c
      requires Count(c.game.grid, c.game.CurrentUserToken()) == 3 && |coords| == 2
      modifies clients`state, games`grid
      ensures Valid() && Removed(c, coords)
    {
      assert c.game in games && |c.game.grid| == 9;
      hide Position, Line;
      c.game.RemoveToken(coords[0], coords[1]);
    }

    /** A 'remove' command. It acts only for the player whose turn it is, with three tokens. */
    method RemoveCommand(c: TTTClient, coords: seq<int>)
      requires Valid() && c in clients
      modifies clients`state, games`grid
      ensures Valid() && Removed(c, coords)
    {
      hide Valid, Paired, Line;
      var g := c.game;
      if g == null {
        c.Send();
      } else if g.current != c {
        c.Send();
      } else {
        var count := g.CountToken(g.CurrentUserToken());
        if count != 3 {
          c.Send();
        } else if |coords| != 2 {
          c.Send();
        } else {
          RemoveFor(c, coords);
        }
      }
    }

    /** The commands that act on games, once their client has logged in. */
    static predicate ActsOnGames(state: ClientState, command: Command) {
      state != CONNECTED && (command.Place? || command.Remove? || (command.Play? && |command.args| == 1))
    }

    /** `handle_command`, for a registered client. */
    method HandleCommand(c: TTTClient, command: Command)
      requires Valid() && c in clients
      modifies this`games, clients`state, clients`game, games`grid, games`current
      ensures Valid() && OnlyDropped() && (command.Quit? ==> c.state == DISCONNECTING)
      ensures ActsOnGames(old(c.state), command) ==>
        match command
        case Play(args) => Played(c, args[0], c.game != old(c.game))
        case Place(coords) => Placed(c, coords)
        case Remove(coords) => Removed(c, coords)
        case _ => true
      ensures !ActsOnGames(old(c.state), command) ==>
        && (forall p :: p in clients ==> p.game == old(p.game) && (p != c ==> p.state == old(p.state)))
        && (forall g :: g in old(games) ==> g.grid == old(g.grid) && g.current == old(g.current))
    {
      hide Valid, Paired;
      if c.state == CONNECTED && !(command.Quit? || command.CreateUser? || command.Login?) {
        c.Send();
      } else if c.state != CONNECTED && (command.CreateUser? || command.Login?) {
        c.Send();
      } else {
        match command {
          case CreateUser(args) => if |args| != 2 { c.Send(); }  // else the user service is asked
          case Login(args) => if |args| != 2 { c.Send(); }
          case Quit =>
            c.state := DISCONNECTING;
          case Play(args) =>
            if |args| != 1 {
              c.Send();
            } else {
              var started := PlayAgainst(c, args[0]);
            }
          case Place(coords) => PlaceCommand(c, coords);
          case Remove(coords) => RemoveCommand(c, coords);
          case Unknown => c.Send();
        }
      }
    }

    /**
     One client leaves: it is no longer registered, and its opponent, when it has one, is free again.
     */
    method Unregister(n: nat)
      requires Valid() && n < |clients|
      modifies this`clients, clients`state, clients`game, clients`hasSocket
      ensures Valid() && clients == old(clients)[..n] + old(clients)[n + 1..] && old(clients)[n] !in clients
      ensures forall k :: 0 <= k < |clients| ==>
        var c := clients[k];
        if old(c.game) != null && old(c.game) == old(clients[n].game)
        then c.game == null && old(c.game).Other(c) == old(clients)[n] && c.state in {old(c.state), DISCONNECTING}
        else c.game == old(c.game) && c.state == old(c.state)
    {
      hide Position;
      var c := clients[n];
      assert Paired(c);
      ghost var was := clients;
      clients := clients[..n] + clients[n + 1..];
      assert forall k :: 0 <= k < |clients| ==> clients[k] == was[if k < n then k else k + 1] != c;
      c.hasSocket := false;
      c.state := DISCONNECTED;
      if c.game != null {
        c.game.Disconnected(c);
      }
      forall k | 0 <= k < |clients| ensures Paired(clients[k]) {
        ghost var j := if k < n then k else k + 1;
        assert clients[k] == was[j] && old(Paired(was[j]));
      }
    }

    /** The client had a game whose other player is no longer registered. */
    predicate OpponentLeft(was: map<TTTClient, (TTTGame?, ClientState)>, c: TTTClient)
      requires c in was
      reads this`clients
    {
      was[c].0 != null && was[c].0.Other(c) !in clients
    }

    /** A client that stays keeps its game and its state unless its opponent has left. */
    ghost predicate Kept(was: map<TTTClient, (TTTGame?, ClientState)>, c: TTTClient)
      reads this`clients, c`game, c`state
    {
      && c in was
      && ((c.game, c.state) == was[c]
          || (OpponentLeft(was, c) && c.game == null && c.state in {was[c].1, DISCONNECTING}))
    }

    ghost predicate AllKept(was: map<TTTClient, (TTTGame?, ClientState)>)
      reads this`clients, clients`game, clients`state
    {
      forall k :: 0 <= k < |clients| ==> Kept(was, clients[k])
    }

    /** A client is gone only if it was disconnecting or its opponent has left. */
    ghost predicate WithReason(was: map<TTTClient, (TTTGame?, ClientState)>)
      reads this`clients
    {
      forall c :: c in was && c !in clients ==> was[c].1 == DISCONNECTING || OpponentLeft(was, c)
    }

    /** Unregistering one more disconnecting client. */
    method UnregisterNext(n: nat, ghost was: map<TTTClient, (TTTGame?, ClientState)>)
      requires Valid() && AllKept(was) && WithReason(was) && n < |clients| && clients[n].state == DISCONNECTING
      modifies this`clients, clients`state, clients`game, clients`hasSocket
      ensures Valid() && AllKept(was) && WithReason(was) && |clients| == |old(clients)| - 1
    {
      hide Valid, Paired;
      ghost var before := clients;
      assert Kept(was, before[n]);
      Unregister(n);
      forall k | 0 <= k < |clients| ensures Kept(was, clients[k]) {
        assert clients[k] == before[if k < n then k else k + 1];
      }
      forall c | c in was && c !in clients ensures was[c].1 == DISCONNECTING || OpponentLeft(was, c) {
        if c in before { assert c == before[n]; }
      }
    }

    /**
     The removal loop: it runs until no registered client is disconnecting. Only clients that were, or
     whose opponent left, are gone; the others keep their state, and their game unless its other player left.
     */
    method RemoveDisconnecting()
      requires Valid()
      modifies this`clients, clients`state, clients`game, clients`hasSocket
      ensures Valid() && forall c :: c in clients ==> c in old(clients) && c.state != DISCONNECTING
      ensures forall c :: c in old(clients) && c !in clients ==>
        old(c.state) == DISCONNECTING || (old(c.game) != null && old(c.game).Other(c) !in clients)
      ensures forall c :: c in clients ==>
        && c.state == old(c.state)
        && (c.game == old(c.game) || (c.game == null && old(c.game) != null && old(c.game).Other(c) !in clients))
    {
      hide Valid, Paired;
      ghost var was := map c | c in clients :: (c.game, c.state);
      var madeChange := true;
      while madeChange
        invariant Valid() && AllKept(was) && WithReason(was)
        invariant !madeChange ==> forall k :: 0 <= k < |clients| ==> clients[k].state != DISCONNECTING
        decreases |clients|, madeChange
      {
        madeChange := false;
        ghost var size := |clients|;
        var n := 0;
        while n < |clients|
          invariant n <= |clients| && Valid() && AllKept(was) && WithReason(was)
          invariant madeChange ==> |clients| < size
          invariant !madeChange ==> |clients| == size && forall k :: 0 <= k < n ==> clients[k].state != DISCONNECTING
          decreases |clients| - n
        {
          if clients[n].state == DISCONNECTING {
            madeChange := true;
            UnregisterNext(n, was);
          } else {
            n := n + 1;
          }
        }
      }
      forall c | c in clients ensures Kept(was, c) {
        var k :| 0 <= k < |clients| && clients[k] == c;
      }
    }
  }
}
