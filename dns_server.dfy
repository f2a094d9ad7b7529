/** The DNS hijacking server of internal/dns/server.go as an object whose
    methods update its tables in place. Every method is proved against the
    functions of module Resolver and module Query, and the mutating ones
    keep the object invariant Valid(). */
module DnsServer {
  import opened Results
  import opened Text
  import opened Ipv4
  import opened Resolver
  import opened Query

  class Server {
    /** The masked network address of the server's range. */
    const base: IPv4
    var mappings: map<string, IPv4>
    var usedIPs: set<string>
    var aliases: map<string, string>
    var searches: seq<string>

    /** The four tables as one value. */
    function State(): Tables
      reads this
    {
      Tables(mappings, usedIPs, aliases, searches)
    }

    ghost predicate Valid()
      reads this
    {
      Consistent(base, State())
    }

    /** NewServer, once the range has been parsed: empty tables. */
    constructor(network: IPv4)
      ensures base == network && State() == Empty && Valid()
    {
      base := network;
      mappings := map[];
      usedIPs := {};
      aliases := map[];
      searches := [];
      new;
      EmptyConsistent(network);
    }

    /** GetIP: the network address with its last octet replaced by the
        index converted to a byte, printed. */
    function GetIP(idx: int): (r: string)
      ensures |r| >= 7
    {
      IPv4(base.a, base.b, base.c, idx % 256).String()
    }

    /** The byte conversion keeps only the index modulo 256: idx + 256
        gives the same address as idx, and -1 the same as 255. */
    lemma GetIPWraps(idx: int)
      ensures GetIP(idx + 256) == GetIP(idx) && GetIP(-1) == GetIP(255)
    {
      assert (idx + 256) % 256 == idx % 256;
    }

    /** On a range whose network address ends in .0, GetIP(i) is the i-th
        address the allocator tries, and distinct indices below 256 give
        distinct addresses. */
    lemma GetIPIsCandidate(i: int, j: int)
      requires base.d == 0 && 0 <= i < 256 && 0 <= j < 256
      ensures GetIP(i) == Candidate(base, i).String()
      ensures GetIP(i) == GetIP(j) <==> i == j
    {
      assert IPv4(base.a, base.b, base.c, i % 256) == Candidate(base, i);
      assert IPv4(base.a, base.b, base.c, j % 256) == Candidate(base, j);
      StringInjective(Candidate(base, i), Candidate(base, j));
    }

    /** getUnusedIP: scan the 256 candidates from the network address,
        advancing the last octet with wrap-around; the first whose printed
        form is not in use is marked used and returned. */
    method GetUnusedIP() returns (ip: Option<IPv4>)
      modifies this`usedIPs
      ensures ip == FirstFree(base, old(usedIPs))
      ensures usedIPs == MarkUsed(old(usedIPs), ip)
    {
      var cur := base;
      var i := 0;
      CandidateZero(base);
      while i < 256
        invariant 0 <= i <= 256
        invariant cur == Candidate(base, i)
        invariant FirstFree(base, usedIPs) == FirstFreeFrom(base, usedIPs, i)
        invariant usedIPs == old(usedIPs)
      {
        var s := cur.String();
        if s !in usedIPs {
          usedIPs := usedIPs + {s};
          return Some(cur);
        }
        CandidateNext(base, i);
        cur := cur.(d := (cur.d + 1) % 256);
        i := i + 1;
      }
      return None;
    }

    /** AddMapping. */
    method AddMapping(name: string) returns (r: Result<IPv4>)
      requires Valid()
      modifies this
      ensures State() == Allocate(base, old(State()), name).0
      ensures r == Allocate(base, old(State()), name).1
      ensures Valid()
    {
      AllocateKeepsConsistent(base, State(), name);
      var key := EnsureDot(name);
      if key in mappings {
        return Ok(mappings[key]);
      }
      var ip := GetUnusedIP();
      if ip.None? {
        return Err("no unused IP found");
      }
      usedIPs := usedIPs + {ip.value.String()};
      mappings := mappings[key := ip.value];
      return Ok(ip.value);
    }

    /** AddMappingAlias: point each alias, normalised, at the normalised
        name, one after the other. The source's error result is always
        nil and is not modelled. */
    method AddMappingAlias(name: string, alias: seq<string>)
      requires Valid()
      modifies this`aliases
      ensures State() == WithAliases(old(State()), name, alias)
      ensures Valid()
    {
      var key := EnsureDot(name);
      var i := 0;
      while i < |alias|
        invariant 0 <= i <= |alias|
        invariant aliases == WithAliases(old(State()), name, alias[..i]).aliases
      {
        var a := EnsureDot(alias[i]);
        WithAliasesStep(old(State()), name, alias, i);
        aliases := aliases[a := key];
        i := i + 1;
      }
      assert alias[..|alias|] == alias;
    }

    /** RemoveMapping, including its sweep over the alias table. */
    method RemoveMapping(name: string) returns (r: Result<IPv4>)
      requires Valid()
      modifies this
      ensures State() == Release(old(State()), name).0
      ensures r == Release(old(State()), name).1
      ensures Valid()
    {
      ReleaseKeepsConsistent(base, State(), name);
      var key := EnsureDot(name);
      if key !in mappings {
        return Err("no mapping for " + key);
      }
      var ip := mappings[key];
      mappings := mappings - {key};
      usedIPs := usedIPs - {ip.String()};
      var pending := aliases.Keys;
      KeepAliasesAll(aliases, key);
      while pending != {}
        modifies this`aliases
        invariant aliases == KeepAliases(old(aliases), key, pending)
        decreases pending
      {
        var k :| k in pending;
        KeepAliasesStep(old(aliases), key, pending, k);
        if aliases[k] == key {
          aliases := aliases - {k};
        }
        pending := pending - {k};
      }
      return Ok(ip);
    }

    /** SetSearchDomains: replace the suffix list wholesale. */
    method SetSearchDomains(domains: seq<string>)
      requires Valid()
      modifies this`searches
      ensures State() == old(State()).(searches := domains)
      ensures Valid()
    {
      searches := domains;
    }

    /** resolveQuery: exact name, then alias, then the search suffixes in
        order. */
    method ResolveQuery(q: string) returns (ip: Option<IPv4>)
      ensures ip == Resolve(State(), q)
    {
      if q in mappings {
        return Some(mappings[q]);
      }
      if q in aliases && aliases[q] in mappings {
        return Some(mappings[aliases[q]]);
      }
      ghost var names := Expansions(q, searches);
      var i := 0;
      while i < |searches|
        invariant 0 <= i <= |searches|
        invariant forall j :: 0 <= j < i ==> names[j] !in mappings
      {
        var full := JoinDomain(q, searches[i]);
        assert names[i] == full;
        if full in mappings {
          FirstMappedIs(mappings, names, 0, i);
          return Some(mappings[full]);
        }
        i := i + 1;
      }
      return None;
    }

    /** handleRequest: answer every A question that resolves, skip AAAA and
        other questions, then set the response code. */
    method HandleRequest(req: Request) returns (reply: Reply)
      requires |req.questions| > 0
      ensures reply == Respond(State(), req)
    {
      var answers: seq<ARecord> := [];
      var authoritative := false;
      var rcode := RcodeSuccess;
      var i := 0;
      while i < |req.questions|
        invariant 0 <= i <= |req.questions|
        invariant answers == Answers(State(), req.questions[..i])
        invariant authoritative <==> answers != []
      {
        var q := req.questions[i];
        assert req.questions[..i + 1][..i] == req.questions[..i];
        if q.qtype == TypeA {
          var ip := ResolveQuery(q.name);
          if ip.Some? {
            answers := answers + [ARecord(q.name, TypeA, ClassINET, AnswerTtl, ip.value)];
            authoritative := true;
            rcode := RcodeSuccess;
          }
        }
        i := i + 1;
      }
      assert req.questions[..i] == req.questions;
      if |answers| == 0 {
        if HasQueryType(req.questions, TypeAAAA) && !HasQueryType(req.questions, TypeA) {
          rcode := RcodeSuccess;
        } else {
          rcode := RcodeNameError;
        }
      } else {
        rcode := RcodeSuccess;
      }
      return Reply(req.id, answers, authoritative, rcode);
    }
  }
}
