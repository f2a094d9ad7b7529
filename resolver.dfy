/** The state of the DNS hijacking server in internal/dns/server.go as a value,
    and its operations as functions on that value: allocation from the
    256-address window, removal with the alias cascade, alias bookkeeping,
    name resolution, and the answer and response code of a query. The class
    Server in module DnsServer is proved against these functions. */
module Resolver {
  import opened Results
  import opened Text
  import opened Ipv4

  /** The four tables the server owns: name to address, the printed forms of
      the addresses in use, alias to canonical name, and the search suffixes. */
  datatype Tables = Tables(mappings: map<string, IPv4>, usedIPs: set<string>,
                           aliases: map<string, string>, searches: seq<string>)

  const Empty := Tables(map[], {}, map[], [])

  /** The k-th address the allocator tries: the network base with its last
      octet advanced by k, wrapping within the byte. */
  function Candidate(base: IPv4, k: nat): IPv4 {
    IPv4(base.a, base.b, base.c, (base.d + k) % 256)
  }

  predicate InWindow(base: IPv4, ip: IPv4) {
    ip.a == base.a && ip.b == base.b && ip.c == base.c
  }

  lemma CandidateOf(base: IPv4, ip: IPv4)
    requires InWindow(base, ip)
    ensures ip == Candidate(base, (ip.d - base.d) % 256)
  {
  }

  /** The scan starts at the network address itself. */
  lemma CandidateZero(base: IPv4)
    ensures Candidate(base, 0) == base
  {
    assert (base.d + 0) % 256 == base.d;
  }

  /** Incrementing the last octet of the k-th candidate, with the byte's
      wrap-around, gives the next candidate. */
  lemma CandidateNext(base: IPv4, k: nat)
    ensures Candidate(base, k).(d := (Candidate(base, k).d + 1) % 256) == Candidate(base, k + 1)
  {
  }

  lemma CandidateInjective(base: IPv4, j: nat, k: nat)
    requires j < 256 && k < 256
    ensures Candidate(base, j) == Candidate(base, k) <==> j == k
  {
  }

  /** The object invariant of the server: every name is dot-terminated and
      maps to an address of the window, distinct names hold distinct
      addresses, the used set is exactly the set of mapped addresses, and
      alias entries are dot-terminated on both sides. */
  ghost predicate Consistent(base: IPv4, t: Tables) {
    && (forall n :: n in t.mappings ==> EndsWithDot(n) && InWindow(base, t.mappings[n]))
    && (forall n, n' :: n in t.mappings && n' in t.mappings && n != n' ==> t.mappings[n] != t.mappings[n'])
    && t.usedIPs == Printed(t.mappings)
    && (forall a :: a in t.aliases ==> EndsWithDot(a) && EndsWithDot(t.aliases[a]))
  }

  /** The printed forms of the addresses a table hands out. */
  ghost function Printed(m: map<string, IPv4>): set<string> {
    set n | n in m :: m[n].String()
  }

  /** Some name holds the address. */
  ghost predicate Held(m: map<string, IPv4>, ip: IPv4) {
    exists n :: n in m && m[n] == ip
  }

  /** An address's printed form is in use exactly when some name holds the
      address. */
  lemma PrintedHeld(m: map<string, IPv4>, ip: IPv4)
    ensures ip.String() in Printed(m) <==> Held(m, ip)
  {
    if ip.String() in Printed(m) {
      var n :| n in m && m[n].String() == ip.String();
      StringInjective(m[n], ip);
    }
  }

  lemma PrintedAdd(m: map<string, IPv4>, key: string, ip: IPv4)
    requires key !in m
    ensures Printed(m[key := ip]) == Printed(m) + {ip.String()}
  {
    var m' := m[key := ip];
    forall x | x in Printed(m) + {ip.String()}
      ensures x in Printed(m')
    {
      if x != ip.String() {
        var n :| n in m && m[n].String() == x;
        assert m'[n] == m[n];
      } else {
        assert m'[key] == ip;
      }
    }
  }

  lemma PrintedRemove(m: map<string, IPv4>, key: string)
    requires key in m
    requires forall n :: n in m && n != key ==> m[n] != m[key]
    ensures Printed(m - {key}) == Printed(m) - {m[key].String()}
  {
    var m' := m - {key};
    forall x | x in Printed(m) - {m[key].String()}
      ensures x in Printed(m')
    {
      var n :| n in m && m[n].String() == x;
      assert n != key && m'[n] == m[n];
    }
    forall n | n in m'
      ensures m'[n].String() != m[key].String()
    {
      StringInjective(m'[n], m[key]);
    }
  }

  lemma EmptyConsistent(base: IPv4)
    ensures Consistent(base, Empty)
  {
  }

  /** The scan of getUnusedIP from candidate k on: the index of the first
      candidate whose printed address is not in used, or None when the
      candidates k..255 are all taken. */
  function FreeFrom(base: IPv4, used: set<string>, k: nat): (r: Option<nat>)
    requires k <= 256
    ensures r.Some? ==> k <= r.value < 256 && Candidate(base, r.value).String() !in used
    ensures r.Some? ==> forall j :: k <= j < r.value ==> Candidate(base, j).String() in used
    ensures r.None? <==> forall j :: k <= j < 256 ==> Candidate(base, j).String() in used
    decreases 256 - k
  {
    if k == 256 then None
    else if Candidate(base, k).String() !in used then Some(k)
    else FreeFrom(base, used, k + 1)
  }

  /** getUnusedIP's answer from candidate k on: the first free candidate
      as an address. */
  function FirstFreeFrom(base: IPv4, used: set<string>, k: nat): (r: Option<IPv4>)
    requires k <= 256
    ensures r.Some? ==> InWindow(base, r.value) && r.value.String() !in used
  {
    match FreeFrom(base, used, k)
    case None => None
    case Some(j) => Some(Candidate(base, j))
  }

  /** getUnusedIP's answer: the first free candidate of the whole window. */
  function FirstFree(base: IPv4, used: set<string>): (r: Option<IPv4>)
    ensures r.Some? ==> InWindow(base, r.value) && r.value.String() !in used
  {
    FirstFreeFrom(base, used, 0)
  }

  /** The used set after getUnusedIP has marked its answer. */
  function MarkUsed(used: set<string>, ip: Option<IPv4>): (r: set<string>)
    ensures ip.None? ==> r == used
    ensures ip.Some? ==> r - {ip.value.String()} == used - {ip.value.String()} && ip.value.String() in r
  {
    match ip
    case None => used
    case Some(a) => used + {a.String()}
  }

  /** AddMapping: the normalised name keeps the address it already has;
      otherwise it takes the lowest free candidate, or the call fails and
      nothing changes. The invariant is preserved. */
  function Allocate(base: IPv4, t: Tables, name: string): (r: (Tables, Result<IPv4>))
    ensures r.1.Ok? ==> EnsureDot(name) in r.0.mappings && r.0.mappings[EnsureDot(name)] == r.1.value
    ensures r.1.Err? ==> r.0 == t
    ensures r.0.aliases == t.aliases && r.0.searches == t.searches
  {
    var key := EnsureDot(name);
    if key in t.mappings then (t, Ok(t.mappings[key]))
    else
      match FirstFree(base, t.usedIPs)
      case None => (t, Err("no unused IP found"))
      case Some(ip) =>
        (t.(mappings := t.mappings[key := ip], usedIPs := t.usedIPs + {ip.String()}), Ok(ip))
  }

  /** The alias table while RemoveMapping sweeps it for the removed name
      key: the entries still pending a visit, and the entries visited that
      do not point at key. */
  function KeepAliases(al: map<string, string>, key: string, pending: set<string>): (r: map<string, string>)
    ensures forall a :: a in r <==> a in al && (a in pending || al[a] != key)
    ensures forall a :: a in r ==> r[a] == al[a]
  {
    map a | a in al && (a in pending || al[a] != key) :: al[a]
  }

  /** Visiting one pending entry drops it exactly when it points at key. */
  lemma KeepAliasesStep(al: map<string, string>, key: string, pending: set<string>, k: string)
    requires k in pending && k in al
    ensures KeepAliases(al, key, pending - {k})
         == if al[k] == key then KeepAliases(al, key, pending) - {k} else KeepAliases(al, key, pending)
  {
  }

  /** Before the sweep nothing is dropped. */
  lemma KeepAliasesAll(al: map<string, string>, key: string)
    ensures KeepAliases(al, key, al.Keys) == al
  {
  }

  /** RemoveMapping: an unmapped name is an error that changes nothing;
      otherwise the mapping goes, its address is freed and every alias whose
      target is the name goes with it. */
  function Release(t: Tables, name: string): (r: (Tables, Result<IPv4>))
    ensures EnsureDot(name) !in r.0.mappings
    ensures r.1.Ok? ==> forall a :: a in r.0.aliases ==> r.0.aliases[a] != EnsureDot(name)
    ensures r.0.searches == t.searches
  {
    var key := EnsureDot(name);
    if key !in t.mappings then (t, Err("no mapping for " + key))
    else
      var ip := t.mappings[key];
      (t.(mappings := t.mappings - {key},
          usedIPs := t.usedIPs - {ip.String()},
          aliases := KeepAliases(t.aliases, key, {})),
       Ok(ip))
  }

  /** The names with the trailing-dot normalisation applied to each. */
  function Normalised(names: seq<string>): (r: seq<string>)
    ensures |r| == |names| && forall i :: 0 <= i < |names| ==> r[i] == EnsureDot(names[i])
  {
    seq(|names|, i requires 0 <= i < |names| => EnsureDot(names[i]))
  }

  /** AddMappingAlias: each alias, normalised, is pointed at the normalised
      canonical name; whether the canonical name is mapped does not matter. */
  function WithAliases(t: Tables, name: string, aliases: seq<string>): (r: Tables)
    ensures r.mappings == t.mappings && r.usedIPs == t.usedIPs && r.searches == t.searches
    ensures forall a :: a in r.aliases <==> a in t.aliases || a in Normalised(aliases)
    ensures forall a :: a in Normalised(aliases) ==> r.aliases[a] == EnsureDot(name)
    ensures forall a :: a in t.aliases && a !in Normalised(aliases) ==> r.aliases[a] == t.aliases[a]
  {
    t.(aliases := t.aliases + map a | a in Normalised(aliases) :: EnsureDot(name))
  }

  /** Adding the aliases one at a time, in argument order, as the loop of
      AddMappingAlias does, reaches the same tables. */
  lemma WithAliasesStep(t: Tables, name: string, aliases: seq<string>, i: nat)
    requires i < |aliases|
    ensures WithAliases(t, name, aliases[..i + 1])
         == WithAliases(t, name, aliases[..i]).(aliases :=
              WithAliases(t, name, aliases[..i]).aliases[EnsureDot(aliases[i]) := EnsureDot(name)])
  {
    assert Normalised(aliases[..i + 1]) == Normalised(aliases[..i]) + [EnsureDot(aliases[i])];
  }

  /** JoinDomain: the dot-terminated query name followed by the
      dot-terminated search suffix, with no merging of overlapping labels. */
  function JoinDomain(domain: string, search: string): (r: string)
    ensures EndsWithDot(r)
  {
    EnsureDot(domain) + EnsureDot(search)
  }

  /** The joined name is the normalised name followed by the normalised
      suffix. */
  lemma JoinDomainParts(domain: string, search: string)
    ensures HasPrefix(JoinDomain(domain, search), EnsureDot(domain))
    ensures HasSuffix(JoinDomain(domain, search), EnsureDot(search))
  {
    var d, s := EnsureDot(domain), EnsureDot(search);
    assert (d + s)[..|d|] == d;
    assert (d + s)[|d + s| - |s|..] == s;
  }

  /** The fully qualified names the search step tries for q, one per
      search suffix, in list order. */
  function Expansions(q: string, searches: seq<string>): (r: seq<string>)
    ensures |r| == |searches|
    ensures forall i :: 0 <= i < |searches| ==> r[i] == JoinDomain(q, searches[i])
  {
    seq(|searches|, i requires 0 <= i < |searches| => JoinDomain(q, searches[i]))
  }

  /** The search-domain step of resolveQuery: the position of the first
      name, in list order, that is mapped. */
  function FirstMapped(m: map<string, IPv4>, names: seq<string>): (r: Option<nat>)
    ensures r.Some? ==> r.value < |names| && names[r.value] in m
    ensures r.Some? ==> forall j :: 0 <= j < r.value ==> names[j] !in m
    ensures r.None? ==> forall i :: 0 <= i < |names| ==> names[i] !in m
  {
    FirstMappedFrom(m, names, 0)
  }

  /** The first name at index k or later that is mapped. */
  function FirstMappedFrom(m: map<string, IPv4>, names: seq<string>, k: nat): (r: Option<nat>)
    requires k <= |names|
    decreases |names| - k
    ensures r.Some? ==> k <= r.value < |names| && names[r.value] in m
    ensures r.Some? ==> forall j :: k <= j < r.value ==> names[j] !in m
    ensures r.None? ==> forall i :: k <= i < |names| ==> names[i] !in m
  {
    if k == |names| then None
    else if names[k] in m then Some(k)
    else FirstMappedFrom(m, names, k + 1)
  }

  /** resolveQuery: an exact mapping, else an alias whose target is mapped,
      else the search suffixes in order. The query name is not normalised. */
  function Resolve(t: Tables, q: string): Option<IPv4> {
    if q in t.mappings then Some(t.mappings[q])
    else if q in t.aliases && t.aliases[q] in t.mappings then Some(t.mappings[t.aliases[q]])
    else
      var names := Expansions(q, t.searches);
      match FirstMapped(t.mappings, names)
      case None => None
      case Some(i) => Some(t.mappings[names[i]])
  }

  /* ---------- Properties of allocation and removal ---------- */

  /** AddMapping keeps the object invariant. */
  lemma AllocateKeepsConsistent(base: IPv4, t: Tables, name: string)
    requires Consistent(base, t)
    ensures Consistent(base, Allocate(base, t, name).0)
  {
    var key := EnsureDot(name);
    if key !in t.mappings {
      var found := FreeFrom(base, t.usedIPs, 0);
      if found.Some? {
        AddKeepsConsistent(base, t, key, Candidate(base, found.value));
      }
    }
  }

  /** Binding a new dot-terminated name to an address of the window whose
      printed form is not in use keeps the invariant. */
  lemma AddKeepsConsistent(base: IPv4, t: Tables, key: string, ip: IPv4)
    requires Consistent(base, t)
    requires EndsWithDot(key) && key !in t.mappings
    requires InWindow(base, ip) && ip.String() !in t.usedIPs
    ensures Consistent(base, t.(mappings := t.mappings[key := ip], usedIPs := t.usedIPs + {ip.String()}))
  {
    PrintedHeld(t.mappings, ip);
    PrintedAdd(t.mappings, key, ip);
  }

  /** RemoveMapping keeps the object invariant: the freed address was held
      by the removed name alone, so its printed form leaves the used set. */
  lemma ReleaseKeepsConsistent(base: IPv4, t: Tables, name: string)
    requires Consistent(base, t)
    ensures Consistent(base, Release(t, name).0)
  {
    var key := EnsureDot(name);
    if key in t.mappings {
      PrintedRemove(t.mappings, key);
    }
  }

  /** Adding a name twice hands out one address: the second call returns the
      first call's address and changes nothing. */
  lemma {:induction false} AllocateIdempotent(base: IPv4, t: Tables, name: string)
    requires Allocate(base, t, name).1.Ok?
    ensures var (t1, r1) := Allocate(base, t, name);
            Allocate(base, t1, name) == (t1, r1)
  {
  }

  /** ip is the first address of the window, in scan order from the
      network base, that no name of m holds. */
  ghost predicate LowestFree(base: IPv4, m: map<string, IPv4>, ip: IPv4) {
    && InWindow(base, ip)
    && !Held(m, ip)
    && forall j :: 0 <= j < (ip.d - base.d) % 256 ==> Held(m, Candidate(base, j))
  }

  /** A name that is not yet mapped gets the lowest free address of the
      window. */
  lemma AllocateLowestFree(base: IPv4, t: Tables, name: string)
    requires Consistent(base, t)
    requires EnsureDot(name) !in t.mappings
    ensures Allocate(base, t, name).1.Ok? ==> LowestFree(base, t.mappings, Allocate(base, t, name).1.value)
  {
    var found := FreeFrom(base, t.usedIPs, 0);
    if found.Some? {
      ScanFindsLowestFree(base, t, found.value);
    }
  }

  /** What the scan's answer k means for a consistent table. */
  lemma ScanFindsLowestFree(base: IPv4, t: Tables, k: nat)
    requires Consistent(base, t)
    requires FreeFrom(base, t.usedIPs, 0) == Some(k)
    ensures LowestFree(base, t.mappings, Candidate(base, k))
  {
    CandidateIndex(base, k);
    PrintedHeld(t.mappings, Candidate(base, k));
    AllHeld(base, t.mappings, t.usedIPs, k);
  }

  lemma CandidateIndex(base: IPv4, k: nat)
    requires k < 256
    ensures (Candidate(base, k).d - base.d) % 256 == k
  {
  }

  /** Candidates below k whose printed forms are in use are held by names. */
  lemma AllHeld(base: IPv4, m: map<string, IPv4>, used: set<string>, k: nat)
    requires used == Printed(m)
    requires forall j :: 0 <= j < k ==> Candidate(base, j).String() in used
    ensures forall j :: 0 <= j < k ==> Held(m, Candidate(base, j))
  {
    forall j | 0 <= j < k
      ensures Held(m, Candidate(base, j))
    {
      PrintedHeld(m, Candidate(base, j));
    }
  }

  /** Every address of the window is held by some name. */
  ghost predicate Full(base: IPv4, t: Tables) {
    forall ip: IPv4 :: InWindow(base, ip) ==> Held(t.mappings, ip)
  }

  /** AddMapping of a new name fails exactly when all 256 addresses of the
      window are held. */
  lemma AllocateFailsIffFull(base: IPv4, t: Tables, name: string)
    requires Consistent(base, t)
    requires EnsureDot(name) !in t.mappings
    ensures Allocate(base, t, name).1.Err? <==> Full(base, t)
  {
    if Allocate(base, t, name).1.Err? {
      forall ip: IPv4 | InWindow(base, ip)
        ensures Held(t.mappings, ip)
      {
        CandidateOf(base, ip);
        var j := (ip.d - base.d) % 256;
        assert Candidate(base, j).String() in t.usedIPs;
        var n :| n in t.mappings && t.mappings[n].String() == ip.String();
        StringInjective(t.mappings[n], ip);
      }
    } else {
      var ip := Allocate(base, t, name).1.value;
      AllocateLowestFree(base, t, name);
      assert !Held(t.mappings, ip);
    }
  }

  /** RemoveMapping of a mapped name returns its address, frees it, and
      leaves every other name's address and every alias that does not point
      at the name as it was. */
  lemma ReleaseEffect(base: IPv4, t: Tables, name: string)
    requires Consistent(base, t)
    requires EnsureDot(name) in t.mappings
    ensures var (t1, r) := Release(t, name);
            && r == Ok(t.mappings[EnsureDot(name)])
            && r.value.String() !in t1.usedIPs
            && (forall n :: n in t1.mappings <==> n in t.mappings && n != EnsureDot(name))
            && (forall n :: n in t1.mappings ==> t1.mappings[n] == t.mappings[n])
            && (forall a :: a in t1.aliases <==> a in t.aliases && t.aliases[a] != EnsureDot(name))
            && (forall a :: a in t1.aliases ==> t1.aliases[a] == t.aliases[a])
  {
  }

  /** RemoveMapping of a name that is not mapped reports an error and
      changes nothing. */
  lemma ReleaseUnmapped(t: Tables, name: string)
    requires EnsureDot(name) !in t.mappings
    ensures Release(t, name) == (t, Err("no mapping for " + EnsureDot(name)))
  {
  }

  /** Removing a name right after it was freshly added restores the tables,
      provided no alias pointed at the name beforehand. */
  lemma AllocateReleaseRoundTrip(base: IPv4, t: Tables, name: string)
    requires EnsureDot(name) !in t.mappings
    requires forall a :: a in t.aliases ==> t.aliases[a] != EnsureDot(name)
    ensures Release(Allocate(base, t, name).0, name).0 == t
  {
    var key := EnsureDot(name);
    var (t1, r) := Allocate(base, t, name);
    if r.Ok? {
      var ip := r.value;
      assert t1 == t.(mappings := t.mappings[key := ip], usedIPs := t.usedIPs + {ip.String()});
      assert ip.String() !in t.usedIPs by {
        assert FirstFree(base, t.usedIPs) == Some(ip);
      }
      var t2 := Release(t1, name).0;
      assert t2.mappings == t.mappings;
      assert t2.usedIPs == t.usedIPs;
      assert t2.aliases == t.aliases;
    }
  }

  /** A freed address is the first one handed out again when every lower
      candidate is still held. */
  lemma FreedAddressReused(base: IPv4, t: Tables, name: string, other: string)
    requires Consistent(base, t)
    requires EnsureDot(name) in t.mappings && EnsureDot(other) != EnsureDot(name)
    requires EnsureDot(other) !in t.mappings
    requires var ip := t.mappings[EnsureDot(name)];
             forall j :: 0 <= j < (ip.d - base.d) % 256 ==> Candidate(base, j).String() in t.usedIPs
    ensures Allocate(base, Release(t, name).0, other).1 == Ok(t.mappings[EnsureDot(name)])
  {
    var key := EnsureDot(name);
    var ip := t.mappings[key];
    PrintedRemove(t.mappings, key);
    var k := (ip.d - base.d) % 256;
    CandidateOf(base, ip);
    FreedIsFirst(base, t.usedIPs, ip, k);
  }

  /** Taking ip out of the used set makes it the scan's answer when every
      lower candidate stays in. */
  lemma FreedIsFirst(base: IPv4, used: set<string>, ip: IPv4, k: nat)
    requires k < 256 && ip == Candidate(base, k)
    requires forall j :: 0 <= j < k ==> Candidate(base, j).String() in used
    ensures FirstFree(base, used - {ip.String()}) == Some(ip)
  {
    forall j | 0 <= j < k
      ensures Candidate(base, j).String() in used - {ip.String()}
    {
      CandidateInjective(base, j, k);
      StringInjective(Candidate(base, j), ip);
    }
    FreeFromFinds(base, used - {ip.String()}, 0, k);
  }

  /** The scan from k returns j when j is free and k..j-1 are all used. */
  lemma {:induction false} FreeFromFinds(base: IPv4, used: set<string>, k: nat, j: nat)
    requires k <= j < 256
    requires Candidate(base, j).String() !in used
    requires forall i :: k <= i < j ==> Candidate(base, i).String() in used
    ensures FreeFrom(base, used, k) == Some(j)
    decreases j - k
  {
    if k < j {
      FreeFromFinds(base, used, k + 1, j);
    }
  }

  /** On a fresh server the first name gets the network address itself. */
  lemma FirstAllocation(base: IPv4, x: string)
    ensures Allocate(base, Empty, x).1 == Ok(Candidate(base, 0))
    ensures Allocate(base, Empty, x).0.usedIPs == {Candidate(base, 0).String()}
  {
    FreeFromFinds(base, {}, 0, 0);
  }

  /** ... and a second, different name the next address of the window. */
  lemma SecondAllocation(base: IPv4, x: string, y: string)
    requires EnsureDot(x) != EnsureDot(y)
    ensures Allocate(base, Allocate(base, Empty, x).0, y).1 == Ok(Candidate(base, 1))
  {
    FirstAllocation(base, x);
    var t1 := Allocate(base, Empty, x).0;
    assert EnsureDot(y) !in t1.mappings;
    NextAllocation(base, t1, y);
  }

  lemma NextAllocation(base: IPv4, t1: Tables, y: string)
    requires t1.usedIPs == {Candidate(base, 0).String()}
    requires EnsureDot(y) !in t1.mappings
    ensures Allocate(base, t1, y).1 == Ok(Candidate(base, 1))
  {
    CandidateInjective(base, 0, 1);
    StringInjective(Candidate(base, 0), Candidate(base, 1));
    FreeFromFinds(base, t1.usedIPs, 0, 1);
  }

  /* ---------- Properties of resolution ---------- */

  /** A query goes unanswered exactly when it is not a mapped name, not an
      alias whose target is mapped, and no search suffix turns it into a
      mapped name. Aliases are not consulted for the joined names. */
  lemma ResolveNoneIff(t: Tables, q: string)
    ensures Resolve(t, q).None? <==>
            && q !in t.mappings
            && !(q in t.aliases && t.aliases[q] in t.mappings)
            && forall i :: 0 <= i < |t.searches| ==> JoinDomain(q, t.searches[i]) !in t.mappings
  {
    var names := Expansions(q, t.searches);
    var r := FirstMapped(t.mappings, names);
    if r.Some? {
      assert names[r.value] in t.mappings;
    }
  }

  /** When neither the name nor an alias hits, the first matching search
      suffix in list order decides the answer, even if later ones match
      too. */
  lemma ResolveFirstSearchWins(t: Tables, q: string, i: nat)
    requires q !in t.mappings && !(q in t.aliases && t.aliases[q] in t.mappings)
    requires i < |t.searches| && JoinDomain(q, t.searches[i]) in t.mappings
    requires forall j :: 0 <= j < i ==> JoinDomain(q, t.searches[j]) !in t.mappings
    ensures Resolve(t, q) == Some(t.mappings[JoinDomain(q, t.searches[i])])
  {
    FirstMappedIs(t.mappings, Expansions(q, t.searches), 0, i);
  }

  /** The search step returns the position of the first hit and no other. */
  lemma {:induction false} FirstMappedIs(m: map<string, IPv4>, names: seq<string>, k: nat, i: nat)
    requires k <= i < |names| && names[i] in m
    requires forall j :: k <= j < i ==> names[j] !in m
    ensures FirstMappedFrom(m, names, k) == Some(i)
    decreases i - k
  {
    if k < i {
      FirstMappedIs(m, names, k + 1, i);
    }
  }

  /** Every answer is an address some name holds, inside the window. */
  lemma ResolveSound(base: IPv4, t: Tables, q: string)
    requires Consistent(base, t)
    ensures Resolve(t, q).Some? ==> Held(t.mappings, Resolve(t, q).value) && InWindow(base, Resolve(t, q).value)
  {
    if q in t.mappings {
      assert t.mappings[q] == Resolve(t, q).value;
    } else if q in t.aliases && t.aliases[q] in t.mappings {
      assert t.mappings[t.aliases[q]] == Resolve(t, q).value;
    } else {
      var names := Expansions(q, t.searches);
      var r := FirstMapped(t.mappings, names);
      if r.Some? {
        assert t.mappings[names[r.value]] == Resolve(t, q).value;
      }
    }
  }

  /** The query name is not normalised: on a consistent server a name
      without the trailing dot is never an exact or alias hit, so without
      search suffixes it goes unanswered. */
  lemma UndottedQueryMisses(base: IPv4, t: Tables, q: string)
    requires Consistent(base, t)
    requires !EndsWithDot(q) && t.searches == []
    ensures Resolve(t, q) == None
  {
    assert q !in t.mappings;
    assert q !in t.aliases;
  }

  /** An alias added with AddMappingAlias resolves to its canonical name's
      address once that name is mapped, unless the alias is itself a
      mapped name. */
  lemma AliasResolves(t: Tables, name: string, alias: string)
    requires EnsureDot(name) in t.mappings && EnsureDot(alias) !in t.mappings
    ensures Resolve(WithAliases(t, name, [alias]), EnsureDot(alias)) == Some(t.mappings[EnsureDot(name)])
  {
    assert Normalised([alias])[0] == EnsureDot(alias);
  }

  /** JoinDomain does not merge labels the name and the suffix share: for
      a name and a suffix without trailing dots the result is the two joined
      by a dot, plus the final dot, whatever labels they have in common
      ("mysql.default" and "default.svc.cluster.local" give
      "mysql.default.default.svc.cluster.local."). */
  lemma JoinDomainNoMerge(d: string, s: string)
    requires !EndsWithDot(d) && !EndsWithDot(s)
    ensures JoinDomain(d, s) == d + "." + s + "."
    ensures |JoinDomain(d, s)| == |d| + |s| + 2
  {
  }

  /** JoinDomain only depends on the normalised name and suffix. */
  lemma JoinDomainNormalised(d: string, s: string)
    ensures JoinDomain(EnsureDot(d), EnsureDot(s)) == JoinDomain(d, s)
  {
    EnsureDotIdempotent(d);
    EnsureDotIdempotent(s);
  }
}
