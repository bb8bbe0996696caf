/** Values shared by every part of the model: what a vault is, what goes over the
    wire, and the order in which the connection maps are walked. */
module VaultTypes {

  datatype Option<+T> = None | Some(value: T)

  datatype Result<+T, +E> = Success(value: T) | Failure(error: E)

  /** kMaxVaultRestarts. */
  const MAX_VAULT_RESTARTS: int := 5

  /** The identity of a TCP connection.  Two connection pointers are the same
      connection exactly when neither is owner_before the other; the numbers stand
      for that order, so the registries' std::map walks its keys upwards.  An empty
      pointer is None, and two empty pointers are the same "connection". */
  type Connection = nat

  datatype Pmid = Pmid(name: string, key: string)

  datatype Signer = Signer(key: string)

  datatype PmidAndSigner = PmidAndSigner(pmid: Pmid, signer: Signer)

  /** VaultInfo: an empty string is an uninitialised label or an empty path.  `pair` is
      the shared pointer to the key pair that `keys` shows: infos copied from one another
      have the same, and what is done to the pair through one is seen through all. */
  datatype VaultInfo = VaultInfo(
    keys: Option<PmidAndSigner>,
    dir: string,
    maxDiskUsage: nat,
    owner: Option<string>,
    vaultLabel: string,
    connection: Option<Connection>,
    pair: nat)

  /** The part of a vault that is kept in the config file: all but its two pointers. */
  function Persisted(infos: seq<VaultInfo>): seq<VaultInfo> {
    seq(|infos|, i requires 0 <= i < |infos| => infos[i].(connection := None, pair := 0))
  }

  /** What the manager puts on the wire.  A refusal carries no label here. */
  datatype Message =
    | Challenge(plain: string)
    | VaultRunning(vaultLabel: string, keys: PmidAndSigner)
    | VaultRefused
    | VaultCredentials(pmid: Pmid, dir: string, maxDiskUsage: nat)
    | VaultShutdownRequest
    | MaxDiskUsageUpdate(disk: nat)
    | NetworkStable
    | LogText(text: string)

  datatype Sent = Sent(to: Connection, message: Message)

  /** Everything sent so far, oldest first, and the connections Close was called on. */
  datatype Wire = Wire(sent: seq<Sent>, closed: set<Connection>) {
    function Send(to: Connection, message: Message): Wire {
      this.(sent := sent + [Sent(to, message)])
    }

    function SendAll(to: seq<Connection>, message: Message): Wire {
      this.(sent := sent + seq(|to|, i requires 0 <= i < |to| => Sent(to[i], message)))
    }

    function Close(c: Connection): Wire {
      this.(closed := closed + {c})
    }

    function CloseAll(cs: set<Connection>): Wire {
      this.(closed := closed + cs)
    }
  }

  /** The element that is removed from a sequence by vector::erase. */
  function Without<T>(s: seq<T>, i: nat): (r: seq<T>)
    requires i < |s|
    ensures |r| == |s| - 1
    ensures forall j :: 0 <= j < i ==> r[j] == s[j]
    ensures forall j :: i <= j < |r| ==> r[j] == s[j + 1]
  {
    s[..i] + s[i + 1..]
  }

  /** Moving the bar between what is done and what is left by one. */
  lemma NextElement<T>(done: seq<T>, s: seq<T>, i: nat)
    requires i < |s|
    ensures done + [s[i]] + s[i + 1..] == done + s[i..]
  {
  }

  function Elements<T(==)>(s: seq<T>): set<T> {
    set x | x in s
  }

  predicate IsLeast(s: set<Connection>, c: Connection) {
    c in s && forall d :: d in s ==> c <= d
  }

  /** A non-empty set of connections has a least one. */
  lemma {:induction false} LeastExists(s: set<Connection>)
    requires s != {}
    ensures exists c :: IsLeast(s, c)
  {
    var c :| c in s;
    if s == {c} {
      assert IsLeast(s, c);
    } else {
      assert s - {c} != {};
      LeastExists(s - {c});
      var b :| IsLeast(s - {c}, b);
      assert forall d :: d in s ==> d == c || d in s - {c};
      assert IsLeast(s, if b <= c then b else c);
    }
  }

  function Least(s: set<Connection>): (c: Connection)
    requires s != {}
    ensures IsLeast(s, c)
  {
    LeastExists(s);
    assert forall b, c :: IsLeast(s, b) && IsLeast(s, c) ==> b <= c <= b;
    var c :| IsLeast(s, c);
    c
  }

  /** The keys of a registry in the order a range-for over its map visits them. */
  function InOrder(s: set<Connection>): (r: seq<Connection>)
    ensures forall c :: c in r <==> c in s
  {
    if s == {} then [] else
      var c := Least(s);
      [c] + InOrder(s - {c})
  }

  /** The walk is strictly upwards, so it meets every key once. */
  lemma {:induction false} InOrderAscends(s: set<Connection>)
    ensures forall i, j :: 0 <= i < j < |InOrder(s)| ==> InOrder(s)[i] < InOrder(s)[j]
  {
    if s != {} {
      var c := Least(s);
      var rest := InOrder(s - {c});
      InOrderAscends(s - {c});
      assert forall i :: 0 <= i < |rest| ==> rest[i] in rest;
    }
  }
}
