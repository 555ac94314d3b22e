/** The client address book (App.tsx `saveClientIfNew`): case-insensitive upsert, most recent first. */
module ClientDirectory {
  import opened Wrappers
  import opened Text
  import opened Types
  import opened Seqs

  function LastSeen(c: Client): int {
    c.lastSeen
  }

  /** `clients.findIndex(c => c.name.toLowerCase() === lowered)`: the first match, if any. */
  function FindByLowerName(clients: seq<Client>, lowered: string): (r: Option<nat>)
    ensures r.Some? ==> r.value < |clients| && ToLower(clients[r.value].name) == lowered
    ensures r.Some? ==> forall j :: 0 <= j < r.value ==> ToLower(clients[j].name) != lowered
    ensures r.None? ==> forall j :: 0 <= j < |clients| ==> ToLower(clients[j].name) != lowered
  {
    if |clients| == 0 then None
    else if ToLower(clients[0].name) == lowered then Some(0)
    else match FindByLowerName(clients[1..], lowered)
      case Some(i) => Some(i + 1)
      case None => None
  }

  /** A known client seen again: same id and name, seen now, address replaced only by a non-empty one. */
  function Touch(c: Client, address: Option<string>, now: nat): (r: Client)
    ensures r.id == c.id && r.name == c.name && r.lastSeen == now
    ensures Truthy(address) ==> r.address == address.value
    ensures !Truthy(address) ==> r.address == c.address
  {
    c.(lastSeen := now, address := Or(address, c.address))
  }

  /** A client met for the first time: id from the clock, trimmed name, address or empty. */
  function NewClient(name: string, address: Option<string>, now: nat): (r: Client)
    ensures r.name == Trim(name) && r.lastSeen == now && r.id == NatToString(now)
    ensures r.address == if Truthy(address) then address.value else ""
  {
    Client(NatToString(now), Trim(name), Or(address, ""), now)
  }

  /**
   * Upserts a client by trimmed, case-insensitive name and re-sorts the book by `lastSeen`,
   * most recent first. The emptiness test looks at the untrimmed name, so a name of
   * white space only is stored under the empty name.
   */
  function SaveClientIfNew(clients: seq<Client>, name: string, address: Option<string>, now: nat): (r: seq<Client>)
    ensures name == "" ==> r == clients
    ensures name != "" ==> SortedDesc(r, LastSeen)
    ensures name != "" ==> match FindByLowerName(clients, ToLower(Trim(name)))
      case Some(i) => |r| == |clients| && multiset(r) == multiset(clients[i := Touch(clients[i], address, now)])
      case None => |r| == |clients| + 1 && multiset(r) == multiset(clients) + multiset{NewClient(name, address, now)}
  {
    if name == "" then clients
    else
      var normalized := Trim(name);
      var updated := match FindByLowerName(clients, ToLower(normalized))
        case Some(i) => clients[i := Touch(clients[i], address, now)]
        case None => clients + [NewClient(name, address, now)];
      SortDesc(updated, LastSeen)
  }

  /** At most one entry per case-insensitive name, and no entry twice. */
  predicate UniqueNames(clients: seq<Client>) {
    && (forall c | c in multiset(clients) :: multiset(clients)[c] == 1)
    && (forall a, b | a in clients && b in clients && ToLower(a.name) == ToLower(b.name) :: a == b)
  }

  /** Reordering the book keeps names unique. */
  lemma UniqueNamesPermutation(a: seq<Client>, b: seq<Client>)
    requires multiset(a) == multiset(b) && UniqueNames(a)
    ensures UniqueNames(b)
  {
    forall c | c in b
      ensures c in a
    {
      assert c in multiset(b);
    }
  }

  /** Touching an entry in place keeps names unique when its lowered name is unchanged. */
  lemma UniqueAfterUpdate(clients: seq<Client>, i: nat, t: Client)
    requires UniqueNames(clients) && i < |clients|
    requires ToLower(t.name) == ToLower(clients[i].name)
    ensures UniqueNames(clients[i := t])
  {
    var u := clients[i := t];
    var old_ := clients[i];
    assert multiset(u) == multiset(clients) - multiset{old_} + multiset{t};
    assert t != old_ ==> t !in clients;
    assert t != old_ ==> old_ !in multiset(u);
    forall c | c in u
      ensures c == t || (c in clients && c != old_) || c == old_ == t
    {
      var k :| 0 <= k < |u| && u[k] == c;
      if k != i {
        assert c == clients[k];
      }
    }
    forall c | c in multiset(u)
      ensures multiset(u)[c] == 1
    {
    }
    forall a, b | a in u && b in u && ToLower(a.name) == ToLower(b.name)
      ensures a == b
    {
    }
  }

  /** Appending an entry whose lowered name is new keeps names unique. */
  lemma UniqueAfterAppend(clients: seq<Client>, n: Client)
    requires UniqueNames(clients)
    requires forall j :: 0 <= j < |clients| ==> ToLower(clients[j].name) != ToLower(n.name)
    ensures UniqueNames(clients + [n])
  {
    var u := clients + [n];
    assert n !in clients;
    assert multiset(u) == multiset(clients) + multiset{n};
    forall c | c in u
      ensures c == n || c in clients
    {
      var k :| 0 <= k < |u| && u[k] == c;
      if k < |clients| {
        assert c == clients[k];
      }
    }
  }

  /** The upsert keeps the book free of case-insensitive duplicates. */
  lemma SaveClientKeepsNamesUnique(clients: seq<Client>, name: string, address: Option<string>, now: nat)
    requires UniqueNames(clients)
    ensures UniqueNames(SaveClientIfNew(clients, name, address, now))
  {
    if name != "" {
      var r := SaveClientIfNew(clients, name, address, now);
      match FindByLowerName(clients, ToLower(Trim(name)))
      case Some(i) => {
        UniqueAfterUpdate(clients, i, Touch(clients[i], address, now));
        UniqueNamesPermutation(clients[i := Touch(clients[i], address, now)], r);
      }
      case None => {
        UniqueAfterAppend(clients, NewClient(name, address, now));
        UniqueNamesPermutation(clients + [NewClient(name, address, now)], r);
      }
    }
  }

  lemma TrimAcme()
    ensures Trim(" Acme ") == "Acme"
  {
    assert " Acme "[1..] == "Acme ";
    assert TrimStart("Acme ") == "Acme ";
    assert TrimStart(" Acme ") == "Acme ";
    assert "Acme "[..4] == "Acme";
    assert TrimEnd("Acme") == "Acme";
    assert TrimEnd("Acme ") == "Acme";
  }

  lemma LowerAcme()
    ensures ToLower("Acme") == "acme" && ToLower("acme") == "acme"
  {
    assert ToLower("acme") == "acme";
    assert ToLower("Acme") == "acme";
  }

  /** Upserting " Acme " when "acme" is known touches that entry: no second entry appears. */
  lemma UpsertFindsCaseInsensitively(clients: seq<Client>, address: Option<string>, now: nat)
    requires |clients| > 0 && clients[0].name == "acme"
    ensures |SaveClientIfNew(clients, " Acme ", address, now)| == |clients|
  {
    TrimAcme();
    LowerAcme();
    assert ToLower(clients[0].name) == "acme";
    assert FindByLowerName(clients, "acme") == Some(0);
  }
}
