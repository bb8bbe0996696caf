/** config_file.h and config_file_handler.cc: the config file as a stream of tokens,
    its writer and its reader, and the handler that owns the file.

    The archive format is a token per field, and the cipher is any pair of functions
    of which the second undoes the first. */
module ConfigFiles {
  import opened VaultTypes

  datatype Token =
    | KeyToken(key: string)
    | CountToken(count: nat)
    | CipherToken(text: string)
    | PathToken(path: string)
    | LabelToken(vaultLabel: string)
    | DiskToken(disk: nat)
    | FlagToken(flag: bool)
    | NameToken(name: string)

  /** EncryptPmid, DecryptPmid and the same for the Anpmid.  Decryption may throw. */
  datatype Cipher = Cipher(
    encryptPmid: (string, Pmid) -> string,
    decryptPmid: (string, string) -> Option<Pmid>,
    encryptSigner: (string, Signer) -> string,
    decryptSigner: (string, string) -> Option<Signer>)

  ghost predicate Inverse(c: Cipher) {
    && (forall k, p :: c.decryptPmid(k, c.encryptPmid(k, p)) == Some(p))
    && (forall k, s :: c.decryptSigner(k, c.encryptSigner(k, s)) == Some(s))
  }

  predicate Keyed(vaults: seq<VaultInfo>) {
    forall i :: 0 <= i < |vaults| ==> vaults[i].keys.Some?
  }

  // ---------------------------------------------------------------- the format

  function SaveVault(c: Cipher, key: string, v: VaultInfo): seq<Token>
    requires v.keys.Some?
  {
    [CipherToken(c.encryptPmid(key, v.keys.value.pmid)), CipherToken(c.encryptSigner(key, v.keys.value.signer)),
     PathToken(v.dir), LabelToken(v.vaultLabel), DiskToken(v.maxDiskUsage), FlagToken(v.owner.Some?)]
    + if v.owner.Some? then [NameToken(v.owner.value)] else []
  }

  function SaveVaults(c: Cipher, key: string, vaults: seq<VaultInfo>): seq<Token>
    requires Keyed(vaults)
  {
    if vaults == [] then [] else SaveVault(c, key, vaults[0]) + SaveVaults(c, key, vaults[1..])
  }

  function Save(c: Cipher, key: string, vaults: seq<VaultInfo>): seq<Token>
    requires Keyed(vaults)
  {
    [KeyToken(key), CountToken(|vaults|)] + SaveVaults(c, key, vaults)
  }

  predicate VaultHead(s: seq<Token>) {
    && |s| >= 6
    && s[0].CipherToken? && s[1].CipherToken?
    && s[2].PathToken? && s[3].LabelToken? && s[4].DiskToken? && s[5].FlagToken?
  }

  /** One record and what is left of the stream; None is an exception. */
  function LoadVault(c: Cipher, key: string, s: seq<Token>): Option<(VaultInfo, seq<Token>)> {
    if !VaultHead(s) then None else
      var pmid, signer := c.decryptPmid(key, s[0].text), c.decryptSigner(key, s[1].text);
      if pmid.None? || signer.None? then None else
        var keys := PmidAndSigner(pmid.value, signer.value);
        var v := VaultInfo(Some(keys), s[2].path, s[4].disk, None, s[3].vaultLabel, None, 0);
        if !s[5].flag then Some((v, s[6..]))
        else if |s| >= 7 && s[6].NameToken? then Some((v.(owner := Some(s[6].name)), s[7..]))
        else None
  }

  function LoadVaults(c: Cipher, key: string, n: nat, s: seq<Token>): Option<(seq<VaultInfo>, seq<Token>)> {
    if n == 0 then Some(([], s)) else
      match LoadVault(c, key, s)
      case None => None
      case Some((v, rest)) =>
        match LoadVaults(c, key, n - 1, rest)
        case None => None
        case Some((vs, rest')) => Some(([v] + vs, rest'))
  }

  datatype Loaded = Loaded(key: string, records: seq<VaultInfo>, rest: seq<Token>)

  function Load(c: Cipher, s: seq<Token>): Option<Loaded> {
    if |s| < 2 || !s[0].KeyToken? || !s[1].CountToken? then None else
      match LoadVaults(c, s[0].key, s[1].count, s[2..])
      case None => None
      case Some((records, rest)) => Some(Loaded(s[0].key, records, rest))
  }

  // ---------------------------------------------------------------- round trip

  lemma LoadVaultRoundTrip(c: Cipher, key: string, v: VaultInfo, rest: seq<Token>)
    requires Inverse(c) && v.keys.Some?
    ensures LoadVault(c, key, SaveVault(c, key, v) + rest) == Some((v.(connection := None, pair := 0), rest))
  {
    var s := SaveVault(c, key, v) + rest;
    assert s[if v.owner.Some? then 7 else 6..] == rest;
  }

  lemma {:induction false} LoadVaultsRoundTrip(c: Cipher, key: string, vaults: seq<VaultInfo>, rest: seq<Token>)
    requires Inverse(c) && Keyed(vaults)
    ensures LoadVaults(c, key, |vaults|, SaveVaults(c, key, vaults) + rest) == Some((Persisted(vaults), rest))
  {
    if vaults == [] {
      assert SaveVaults(c, key, vaults) + rest == rest;
    } else {
      var tail := SaveVaults(c, key, vaults[1..]) + rest;
      assert SaveVaults(c, key, vaults) + rest == SaveVault(c, key, vaults[0]) + tail;
      LoadVaultRoundTrip(c, key, vaults[0], tail);
      LoadVaultsRoundTrip(c, key, vaults[1..], rest);
      assert Persisted(vaults) == [vaults[0].(connection := None, pair := 0)] + Persisted(vaults[1..]);
    }
  }

  /** Reading what was written gives back the key and every vault in order, owner or
      no owner, and takes exactly what was written off the stream. */
  lemma RoundTrip(c: Cipher, key: string, vaults: seq<VaultInfo>, rest: seq<Token>)
    requires Inverse(c) && Keyed(vaults)
    ensures Load(c, Save(c, key, vaults) + rest) == Some(Loaded(key, Persisted(vaults), rest))
  {
    var s := Save(c, key, vaults) + rest;
    assert s[2..] == SaveVaults(c, key, vaults) + rest;
    LoadVaultsRoundTrip(c, key, vaults, rest);
  }

  /** How many tokens the first i records take. */
  function Offset(vaults: seq<VaultInfo>, i: nat): nat
    requires i <= |vaults|
  {
    if i == 0 then 0 else (if vaults[0].owner.Some? then 7 else 6) + Offset(vaults[1..], i - 1)
  }

  lemma {:induction false} RecordStarts(c: Cipher, key: string, vaults: seq<VaultInfo>, i: nat)
    requires Keyed(vaults) && i < |vaults|
    ensures var s, n := SaveVaults(c, key, vaults), Offset(vaults, i);
            && n + |SaveVault(c, key, vaults[i])| <= |s|
            && s[n..n + |SaveVault(c, key, vaults[i])|] == SaveVault(c, key, vaults[i])
  {
    var first, rest := SaveVault(c, key, vaults[0]), SaveVaults(c, key, vaults[1..]);
    if i > 0 {
      RecordStarts(c, key, vaults[1..], i - 1);
      var n, len := Offset(vaults[1..], i - 1), |SaveVault(c, key, vaults[i])|;
      assert vaults[1..][i - 1] == vaults[i];
      assert (first + rest)[|first| + n..|first| + n + len] == rest[n..n + len];
    }
  }

  /** A file that is written says its key and how many records there are; and record by
      record the two parts of the key pair, each encrypted under that key, the directory,
      the label, the limit, whether there is an owner, and if so its name. */
  lemma {:induction false} SavedRecord(c: Cipher, key: string, vaults: seq<VaultInfo>, i: nat)
    requires Keyed(vaults) && i < |vaults|
    ensures var s, n, v := Save(c, key, vaults), 2 + Offset(vaults, i), vaults[i];
            var record := [CipherToken(c.encryptPmid(key, v.keys.value.pmid)),
                           CipherToken(c.encryptSigner(key, v.keys.value.signer)),
                           PathToken(v.dir), LabelToken(v.vaultLabel), DiskToken(v.maxDiskUsage),
                           FlagToken(v.owner.Some?)] + (if v.owner.Some? then [NameToken(v.owner.value)] else []);
            && n + |record| <= |s|
            && s[..2] == [KeyToken(key), CountToken(|vaults|)]
            && s[n..n + |record|] == record
  {
    RecordStarts(c, key, vaults, i);
    var s, n, len := SaveVaults(c, key, vaults), Offset(vaults, i), |SaveVault(c, key, vaults[i])|;
    assert Save(c, key, vaults)[2 + n..2 + n + len] == s[n..n + len];
  }

  lemma LoadVaultExtends(c: Cipher, key: string, s: seq<Token>, more: seq<Token>)
    requires LoadVault(c, key, s).Some?
    ensures LoadVault(c, key, s + more) == Some((LoadVault(c, key, s).value.0, LoadVault(c, key, s).value.1 + more))
  {
    assert (s + more)[6..] == s[6..] + more;
    if s[5].flag {
      assert (s + more)[7..] == s[7..] + more;
    }
  }

  lemma {:induction false} LoadVaultsExtends(c: Cipher, key: string, n: nat, s: seq<Token>, more: seq<Token>)
    requires LoadVaults(c, key, n, s).Some?
    ensures LoadVaults(c, key, n, s + more)
            == Some((LoadVaults(c, key, n, s).value.0, LoadVaults(c, key, n, s).value.1 + more))
  {
    if n > 0 {
      LoadVaultExtends(c, key, s, more);
      LoadVaultsExtends(c, key, n - 1, LoadVault(c, key, s).value.1, more);
    }
  }

  /** A reader that succeeds never looks past what it takes. */
  lemma LoadExtends(c: Cipher, s: seq<Token>, more: seq<Token>)
    requires Load(c, s).Some?
    ensures Load(c, s + more) == Some(Load(c, s).value.(rest := Load(c, s).value.rest + more))
  {
    assert (s + more)[2..] == s[2..] + more;
    LoadVaultsExtends(c, s[0].key, s[1].count, s[2..], more);
  }

  /** No file that was cut short is read as anything. */
  lemma TruncatedIsRefused(c: Cipher, key: string, vaults: seq<VaultInfo>, n: nat)
    requires Inverse(c) && Keyed(vaults) && n < |Save(c, key, vaults)|
    ensures Load(c, Save(c, key, vaults)[..n]).None?
  {
    var s := Save(c, key, vaults);
    RoundTrip(c, key, vaults, []);
    assert s + [] == s && s[..n] + s[n..] == s;
    if Load(c, s[..n]).Some? {
      LoadExtends(c, s[..n], s[n..]);
    }
  }

  // -------------------------------------------------------- the loops, a step on

  lemma NextSaved(c: Cipher, key: string, vaults: seq<VaultInfo>, i: nat, done: seq<Token>)
    requires Keyed(vaults) && i < |vaults|
    ensures done + SaveVaults(c, key, vaults[i..])
            == done + SaveVault(c, key, vaults[i]) + SaveVaults(c, key, vaults[i + 1..])
  {
    assert vaults[i..][1..] == vaults[i + 1..];
  }

  /** A reader of `n` records that has got so far comes to `all` in the end. */
  predicate Comes(c: Cipher, key: string, n: nat, s: seq<Token>, done: seq<VaultInfo>,
                  all: Option<(seq<VaultInfo>, seq<Token>)>) {
    var left := LoadVaults(c, key, n, s);
    if left.None? then all.None? else all == Some((done + left.value.0, left.value.1))
  }

  lemma NextLoaded(c: Cipher, key: string, n: nat, s: seq<Token>, done: seq<VaultInfo>,
                   all: Option<(seq<VaultInfo>, seq<Token>)>)
    requires n > 0 && Comes(c, key, n, s, done, all)
    ensures LoadVault(c, key, s).None? ==> all.None?
    ensures LoadVault(c, key, s).Some? ==>
              Comes(c, key, n - 1, LoadVault(c, key, s).value.1, done + [LoadVault(c, key, s).value.0], all)
  {
    if LoadVault(c, key, s).Some? {
      var (v, rest) := LoadVault(c, key, s).value;
      var left := LoadVaults(c, key, n - 1, rest);
      if left.Some? {
        assert done + ([v] + left.value.0) == (done + [v]) + left.value.0;
      }
    }
  }

  lemma AllLoaded(c: Cipher, key: string, n: nat, s: seq<Token>)
    ensures Comes(c, key, n, s, [], LoadVaults(c, key, n, s))
  {
    var left := LoadVaults(c, key, n, s);
    assert left.Some? ==> [] + left.value.0 == left.value.0;
  }

  lemma NoneLeft(c: Cipher, key: string, s: seq<Token>, done: seq<VaultInfo>, all: Option<(seq<VaultInfo>, seq<Token>)>)
    requires Comes(c, key, 0, s, done, all)
    ensures all == Some((done, s))
  {
    assert done + [] == done;
  }

  // --------------------------------------------------------------- the archives

  class OutputArchive {
    var tokens: seq<Token>

    constructor ()
      ensures tokens == []
    {
      tokens := [];
    }

    method Put(ts: seq<Token>)
      modifies this
      ensures tokens == old(tokens) + ts
    {
      tokens := tokens + ts;
    }
  }

  class InputArchive {
    const tokens: seq<Token>
    var position: nat

    constructor (tokens: seq<Token>)
      ensures this.tokens == tokens && Valid() && Rest() == tokens
    {
      this.tokens := tokens;
      position := 0;
    }

    predicate Valid()
      reads this
    {
      position <= |tokens|
    }

    function Rest(): seq<Token>
      reads this
      requires Valid()
    {
      tokens[position..]
    }

    method Take(n: nat)
      requires Valid() && n <= |Rest()|
      modifies this
      ensures Valid() && Rest() == old(Rest())[n..]
    {
      position := position + n;
    }
  }

  /** ConfigFile: the structure that is read into and written from. */
  class ConfigFile {
    var symmKeyAndIv: string
    var vaults: seq<VaultInfo>

    constructor (symmKeyAndIv: string, vaults: seq<VaultInfo>)
      ensures this.symmKeyAndIv == symmKeyAndIv && this.vaults == vaults
    {
      this.symmKeyAndIv := symmKeyAndIv;
      this.vaults := vaults;
    }

    method SaveTo(c: Cipher, archive: OutputArchive)
      requires Keyed(vaults)
      modifies archive
      ensures archive.tokens == old(archive.tokens) + Save(c, symmKeyAndIv, vaults)
    {
      archive.Put([KeyToken(symmKeyAndIv), CountToken(|vaults|)]);
      var i := 0;
      ghost var whole := archive.tokens + SaveVaults(c, symmKeyAndIv, vaults);
      assert vaults[0..] == vaults;
      while i < |vaults|
        invariant 0 <= i <= |vaults|
        invariant archive.tokens + SaveVaults(c, symmKeyAndIv, vaults[i..]) == whole
      {
        NextSaved(c, symmKeyAndIv, vaults, i, archive.tokens);
        SaveRecord(c, vaults[i], archive);
        i := i + 1;
      }
      assert archive.tokens + [] == archive.tokens;
      assert old(archive.tokens)
             + ([KeyToken(symmKeyAndIv), CountToken(|vaults|)] + SaveVaults(c, symmKeyAndIv, vaults)) == whole;
    }

    /** The body of the loop. */
    method SaveRecord(c: Cipher, v: VaultInfo, archive: OutputArchive)
      requires v.keys.Some?
      modifies archive
      ensures archive.tokens == old(archive.tokens) + SaveVault(c, symmKeyAndIv, v)
    {
      archive.Put([CipherToken(c.encryptPmid(symmKeyAndIv, v.keys.value.pmid)),
                   CipherToken(c.encryptSigner(symmKeyAndIv, v.keys.value.signer)),
                   PathToken(v.dir), LabelToken(v.vaultLabel), DiskToken(v.maxDiskUsage), FlagToken(v.owner.Some?)]);
      if v.owner.Some? {
        archive.Put([NameToken(v.owner.value)]);
      }
    }

    /** The body of the reading loop; None is an exception. */
    method LoadRecord(c: Cipher, archive: InputArchive) returns (r: Option<VaultInfo>)
      requires archive.Valid()
      modifies archive
      ensures archive.Valid()
      ensures r.Some? <==> LoadVault(c, symmKeyAndIv, old(archive.Rest())).Some?
      ensures r.Some? ==> LoadVault(c, symmKeyAndIv, old(archive.Rest())) == Some((r.value, archive.Rest()))
    {
      var s := archive.Rest();
      if !VaultHead(s) {
        return None;
      }
      var vault := VaultInfo(None, s[2].path, s[4].disk, None, s[3].vaultLabel, None, 0);
      archive.Take(6);
      var pmid, signer := c.decryptPmid(symmKeyAndIv, s[0].text), c.decryptSigner(symmKeyAndIv, s[1].text);
      if pmid.None? || signer.None? {
        return None;
      }
      vault := vault.(keys := Some(PmidAndSigner(pmid.value, signer.value)));
      if s[5].flag {
        if |s| < 7 || !s[6].NameToken? {
          return None;
        }
        vault := vault.(owner := Some(s[6].name));
        archive.Take(1);
      }
      return Some(vault);
    }

    /** The reading loop.  The program reads each record into a local and drops it. */
    method LoadRecords(c: Cipher, vaultCount: nat, archive: InputArchive) returns (r: Option<seq<VaultInfo>>)
      requires archive.Valid()
      modifies archive
      ensures archive.Valid()
      ensures r.Some? <==> LoadVaults(c, symmKeyAndIv, vaultCount, old(archive.Rest())).Some?
      ensures r.Some? ==>
        LoadVaults(c, symmKeyAndIv, vaultCount, old(archive.Rest())) == Some((r.value, archive.Rest()))
    {
      var parsed, i := [], 0;
      ghost var all, left := LoadVaults(c, symmKeyAndIv, vaultCount, archive.Rest()), vaultCount;
      AllLoaded(c, symmKeyAndIv, vaultCount, archive.Rest());
      while i < vaultCount
        invariant 0 <= i <= vaultCount && left == vaultCount - i && archive.Valid()
        invariant Comes(c, symmKeyAndIv, left, archive.Rest(), parsed, all)
      {
        NextLoaded(c, symmKeyAndIv, left, archive.Rest(), parsed, all);
        var vault := LoadRecord(c, archive);
        if vault.None? {
          return None;
        }
        parsed := parsed + [vault.value];
        i, left := i + 1, left - 1;
      }
      NoneLeft(c, symmKeyAndIv, archive.Rest(), parsed, all);
      return Some(parsed);
    }

    /** `parsed` are the records the loop reads; `vaults` is never added to. */
    method LoadFrom(c: Cipher, archive: InputArchive) returns (ok: bool, parsed: seq<VaultInfo>)
      requires archive.Valid()
      modifies this, archive
      ensures archive.Valid() && vaults == old(vaults)
      ensures ok <==> Load(c, old(archive.Rest())).Some?
      ensures ok ==> Load(c, old(archive.Rest())) == Some(Loaded(symmKeyAndIv, parsed, archive.Rest()))
    {
      var s := archive.Rest();
      if |s| < 2 || !s[0].KeyToken? || !s[1].CountToken? {
        return false, [];
      }
      symmKeyAndIv := s[0].key;
      archive.Take(2);
      var records := LoadRecords(c, s[1].count, archive);
      if records.None? {
        return false, [];
      }
      return true, records.value;
    }
  }

  /** What the program's reader returns: the vaults it was constructed with, none. */
  function VaultsAsWritten(c: Cipher, s: seq<Token>): Option<seq<VaultInfo>> {
    if Load(c, s).Some? then Some([]) else None
  }

  /** The reader keeps the vaults of a file it reads if and only if there are none. */
  lemma ReaderForgetsVaults(c: Cipher, key: string, vaults: seq<VaultInfo>)
    requires Inverse(c) && Keyed(vaults)
    ensures VaultsAsWritten(c, Save(c, key, vaults)) == Some(Persisted(vaults)) <==> vaults == []
  {
    RoundTrip(c, key, vaults, []);
    assert Save(c, key, vaults) + [] == Save(c, key, vaults);
    assert |Persisted(vaults)| == |vaults|;
  }

  // --------------------------------------------------------------- the handler

  /** ConfigFileHandler: a file and the key it was opened with. */
  class ConfigFileHandler {
    const cipher: Cipher
    const symmKeyAndIv: string
    var content: seq<Token>

    /** The file reads, and under the handler's key: the assert of ReadConfigFile. */
    predicate Valid()
      reads this
    {
      Load(cipher, content).Some? && Load(cipher, content).value.key == symmKeyAndIv
    }

    function Recorded(): seq<VaultInfo>
      reads this
      requires Valid()
    {
      Load(cipher, content).value.records
    }

    constructor (cipher: Cipher, symmKeyAndIv: string, content: seq<Token>)
      requires Load(cipher, content).Some? && Load(cipher, content).value.key == symmKeyAndIv
      ensures Valid() && this.cipher == cipher && this.symmKeyAndIv == symmKeyAndIv && this.content == content
    {
      this.cipher := cipher;
      this.symmKeyAndIv := symmKeyAndIv;
      this.content := content;
    }

    /** The constructor of the source, which may throw.  A file that is there must read,
        and keeps its key; one that is not is created, with a random key and no vaults. */
    static method Open(cipher: Cipher, file: Option<seq<Token>>, random: string, writes: bool)
      returns (r: Option<ConfigFileHandler>)
      requires Inverse(cipher)
      ensures r.Some? <==> if file.Some? then Load(cipher, file.value).Some? else writes
      ensures r.Some? ==> fresh(r.value) && r.value.Valid() && r.value.cipher == cipher
      ensures r.Some? && file.Some? ==> r.value.content == file.value
      ensures r.Some? && file.None? ==> r.value.symmKeyAndIv == random && r.value.Recorded() == []
    {
      if file.Some? {
        var input := new InputArchive(file.value);
        var parsed := new ConfigFile("", []);
        var loaded, _ := parsed.LoadFrom(cipher, input);
        if !loaded {
          return None;
        }
        var existing := new ConfigFileHandler(cipher, parsed.symmKeyAndIv, file.value);
        return Some(existing);
      }
      if !writes {
        return None;
      }
      var config := new ConfigFile(random, []);
      var archive := new OutputArchive();
      config.SaveTo(cipher, archive);
      RoundTrip(cipher, random, [], []);
      assert Save(cipher, random, []) + [] == archive.tokens;
      var created := new ConfigFileHandler(cipher, random, archive.tokens);
      return Some(created);
    }

    /** The vaults the program returns, and those the file records; None is an exception.
        The requirement is the assert of the source. */
    method ReadConfigFile() returns (vaults: Option<seq<VaultInfo>>, recorded: seq<VaultInfo>)
      requires Load(cipher, content).Some? ==> Load(cipher, content).value.key == symmKeyAndIv
      ensures vaults == VaultsAsWritten(cipher, content)
      ensures vaults.Some? ==> recorded == Load(cipher, content).value.records
    {
      var archive := new InputArchive(content);
      var config := new ConfigFile("", []);
      var ok, parsed := config.LoadFrom(cipher, archive);
      if !ok {
        return None, [];
      }
      assert config.symmKeyAndIv == symmKeyAndIv;
      return Some(config.vaults), parsed;
    }

    /** A read after a successful write returns what was written; a failed write
        leaves the file as it was. */
    method WriteConfigFile(vaults: seq<VaultInfo>, writes: bool) returns (ok: bool)
      requires Valid() && Inverse(cipher) && Keyed(vaults)
      modifies this
      ensures Valid() && ok == writes
      ensures Recorded() == if ok then Persisted(vaults) else old(Recorded())
      ensures ok ==> content == Save(cipher, symmKeyAndIv, vaults)
    {
      var config := new ConfigFile(symmKeyAndIv, vaults);
      var archive := new OutputArchive();
      config.SaveTo(cipher, archive);
      if writes {
        RoundTrip(cipher, symmKeyAndIv, vaults, []);
        assert archive.tokens == Save(cipher, symmKeyAndIv, vaults) + [] == Save(cipher, symmKeyAndIv, vaults);
        content := archive.tokens;
      }
      return writes;
    }
  }
}
