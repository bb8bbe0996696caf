/** The two connection registries of new_connections.cc and client_connections.cc:
    first as values, then as the classes that change them in place. */
module Registries {
  import opened VaultTypes
  import opened Networking

  /** What the program takes from its cryptography: whether a signature on a plaintext
      verifies under a public key, the Maid name of that key, and what is left of a key
      pair that was moved from. */
  datatype Crypto = Crypto(
    verifies: (string, string, string) -> bool,
    maidName: string -> string,
    moved: PmidAndSigner -> PmidAndSigner)

  datatype LookupError = ConnectionNotFound | UnvalidatedClient

  /** The time limits of a registry: the connections whose timer it waits on, and those
      whose timer ran out and has its handler queued.  Giving up a timer does not take
      its handler back. */
  datatype Limits = Limits(timed: set<Connection>, overdue: set<Connection>) {
    function Start(c: Connection): Limits {
      this.(timed := timed + {c})
    }

    function Cancel(c: Connection): Limits {
      this.(timed := timed - {c})
    }

    function Expire(c: Connection): Limits {
      if c in timed then Limits(timed - {c}, overdue + {c}) else this
    }

    function Done(c: Connection): Limits {
      this.(overdue := overdue - {c})
    }
  }

  const NO_LIMITS: Limits := Limits({}, {})

  /** `unvalidated` holds the challenge each connection was sent; `limits` are the times
      within which it is to be answered. */
  datatype Clients = Clients(unvalidated: map<Connection, string>, validated: map<Connection, string>, limits: Limits) {

    predicate Tracks(c: Connection) {
      c in unvalidated || c in validated
    }

    /** emplace leaves an entry that is there already as it is. */
    function Add(c: Connection, plain: string): Clients {
      if c in unvalidated then this
      else this.(unvalidated := unvalidated[c := plain], limits := limits.Start(c))
    }

    function Validate(k: Crypto, c: Connection, publicKey: string, signature: string): Result<Clients, bool>
      ensures Validate(k, c, publicKey, signature).Success? <==>
        c in unvalidated && k.verifies(unvalidated[c], signature, publicKey)
    {
      if c !in unvalidated then Failure(false)
      else if !k.verifies(unvalidated[c], signature, publicKey) then Failure(true)
      else Success(Clients(unvalidated - {c},
                           if c in validated then validated else validated[c := k.maidName(publicKey)],
                           limits.Cancel(c)))
    }

    function Remove(c: Connection): Clients {
      if c in validated then this.(validated := validated - {c})
      else if c in unvalidated then this.(unvalidated := unvalidated - {c}, limits := limits.Cancel(c))
      else this
    }

    /** FindValidated(connection), with its two exceptions. */
    function NameOf(c: Connection): Result<string, LookupError> {
      if c in validated then Success(validated[c])
      else if c in unvalidated then Failure(UnvalidatedClient)
      else Failure(ConnectionNotFound)
    }

    /** The first client in map order that was validated under the name. */
    function FindValidated(name: string): (r: Option<Connection>)
      ensures r.Some? ==> r.value in validated && validated[r.value] == name
      ensures r.Some? ==> forall c :: c in validated && validated[c] == name ==> r.value <= c
      ensures r.None? ==> forall c :: c in validated ==> validated[c] != name
    {
      var named := set c | c in validated && validated[c] == name;
      assert forall c :: c in validated && validated[c] == name ==> c in named;
      if named == {} then None else Some(Least(named))
    }

    function GetAll(): (r: seq<Connection>)
      ensures forall c :: c in r <==> Tracks(c)
    {
      InOrder(validated.Keys) + InOrder(unvalidated.Keys)
    }
  }

  const NO_CLIENTS: Clients := Clients(map[], map[], NO_LIMITS)

  class NewConnections {
    var connections: set<Connection>
    var limits: Limits
    const network: Network

    constructor (network: Network)
      ensures connections == {} && limits == NO_LIMITS && this.network == network
    {
      connections := {};
      limits := NO_LIMITS;
      this.network := network;
    }

    /** The assert of the source: the connection was not there before. */
    method Add(c: Connection)
      requires c !in connections
      modifies this
      ensures connections == old(connections) + {c} && limits == old(limits).Start(c)
    {
      limits := limits.Start(c);
      connections := connections + {c};
    }

    /** The timer goes with the entry. */
    method Remove(c: Connection) returns (removed: bool)
      modifies this
      ensures removed <==> c in old(connections)
      ensures connections == old(connections) - {c}
      ensures limits == if removed then old(limits).Cancel(c) else old(limits)
    {
      removed := c in connections;
      if removed {
        connections := connections - {c};
        limits := limits.Cancel(c);
      }
    }

    method LimitExpires(c: Connection)
      modifies this`limits
      ensures limits == old(limits).Expire(c)
    {
      limits := limits.Expire(c);
    }

    /** The handler has only the connection, and closes it wherever it is by now. */
    method LimitRuns(c: Connection)
      modifies this`limits, network
      ensures limits == old(limits).Done(c)
      ensures network.wire == if c in old(limits).overdue then old(network.wire).Close(c) else old(network.wire)
    {
      if c in limits.overdue {
        limits := limits.Done(c);
        network.Close(c);
      }
    }

    method CloseAll()
      modifies network
      ensures network.wire == old(network.wire).CloseAll(connections)
    {
      network.CloseAll(InOrder(connections));
      assert Elements(InOrder(connections)) == connections;
    }
  }

  class ClientConnections {
    var unvalidatedClients: map<Connection, string>
    var clients: map<Connection, string>
    var limits: Limits
    const network: Network

    constructor (network: Network)
      ensures State() == NO_CLIENTS && this.network == network
    {
      unvalidatedClients := map[];
      clients := map[];
      limits := NO_LIMITS;
      this.network := network;
    }

    function State(): Clients
      reads this
    {
      Clients(unvalidatedClients, clients, limits)
    }

    /** Both asserts of the source are demands on the caller. */
    method Add(c: Connection, challenge: string)
      requires c !in clients
      requires c !in unvalidatedClients
      modifies this
      ensures State() == old(State()).Add(c, challenge)
    {
      limits := limits.Start(c);
      unvalidatedClients := unvalidatedClients[c := challenge];
    }

    /** A failed signature closes the connection; an unknown connection does not. */
    method Validate(k: Crypto, c: Connection, publicKey: string, signature: string) returns (ok: bool)
      requires c in unvalidatedClients ==> c !in clients
      modifies this, network
      ensures ok <==> old(State()).Validate(k, c, publicKey, signature).Success?
      ensures ok ==> State() == old(State()).Validate(k, c, publicKey, signature).value
      ensures !ok ==> State() == old(State())
      ensures network.wire
              == if c in old(unvalidatedClients) && !ok then old(network.wire).Close(c) else old(network.wire)
    {
      if c !in unvalidatedClients {
        return false;
      }
      if !k.verifies(unvalidatedClients[c], signature, publicKey) {
        network.Close(c);
        return false;
      }
      clients := clients[c := k.maidName(publicKey)];
      unvalidatedClients := unvalidatedClients - {c};
      limits := limits.Cancel(c);
      return true;
    }

    method Remove(c: Connection) returns (removed: bool)
      modifies this
      ensures removed <==> old(State()).Tracks(c)
      ensures State() == old(State()).Remove(c)
    {
      if c in clients {
        clients := clients - {c};
        return true;
      }
      removed := c in unvalidatedClients;
      if removed {
        unvalidatedClients := unvalidatedClients - {c};
        limits := limits.Cancel(c);
      }
    }

    method LimitExpires(c: Connection)
      modifies this`limits
      ensures State() == old(State()).(limits := old(limits).Expire(c))
    {
      limits := limits.Expire(c);
    }

    /** As for new connections. */
    method LimitRuns(c: Connection)
      modifies this`limits, network
      ensures State() == old(State()).(limits := old(limits).Done(c))
      ensures network.wire == if c in old(limits).overdue then old(network.wire).Close(c) else old(network.wire)
    {
      if c in limits.overdue {
        limits := limits.Done(c);
        network.Close(c);
      }
    }

    method CloseAll()
      modifies network
      ensures network.wire == old(network.wire).CloseAll(unvalidatedClients.Keys).CloseAll(clients.Keys)
    {
      network.CloseAll(InOrder(unvalidatedClients.Keys));
      assert Elements(InOrder(unvalidatedClients.Keys)) == unvalidatedClients.Keys;
      network.CloseAll(InOrder(clients.Keys));
      assert Elements(InOrder(clients.Keys)) == clients.Keys;
    }

    method NameOf(c: Connection) returns (r: Result<string, LookupError>)
      ensures r == State().NameOf(c)
    {
      if c !in clients {
        if c !in unvalidatedClients {
          return Failure(ConnectionNotFound);
        }
        return Failure(UnvalidatedClient);
      }
      return Success(clients[c]);
    }

    /** The two loops of GetAll: the validated clients, then the others. */
    method GetAll() returns (all: seq<Connection>)
      ensures all == State().GetAll()
    {
      var first, second := InOrder(clients.Keys), InOrder(unvalidatedClients.Keys);
      all := [];
      var i := 0;
      while i < |first|
        invariant 0 <= i <= |first|
        invariant all == first[..i]
      {
        all := all + [first[i]];
        i := i + 1;
      }
      i := 0;
      while i < |second|
        invariant 0 <= i <= |second|
        invariant all == first + second[..i]
      {
        all := all + [second[i]];
        i := i + 1;
      }
      assert second[..|second|] == second;
    }

    /** std::find_if over the map of validated clients. */
    method FindValidated(name: string) returns (r: Option<Connection>)
      ensures r == State().FindValidated(name)
    {
      var order := InOrder(clients.Keys);
      InOrderAscends(clients.Keys);
      var i := 0;
      while i < |order|
        invariant 0 <= i <= |order|
        invariant forall j :: 0 <= j < i ==> clients[order[j]] != name
      {
        if clients[order[i]] == name {
          forall c | c in clients && clients[c] == name
            ensures order[i] <= c
          {
            var j :| 0 <= j < |order| && order[j] == c;
          }
          return Some(order[i]);
        }
        i := i + 1;
      }
      assert forall c :: c in clients ==> c in order;
      return None;
    }
  }
}
