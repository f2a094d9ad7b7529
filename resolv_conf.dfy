/** The search-domain extraction of parseResolvConf in
    internal/config/resolve.go. Opening the file and scanning it into lines
    are outside the model: the method receives the outcome of the open (the
    lines, or the error) and the scanner's final error. */
module ResolvConf {
  import opened Results
  import opened Text

  /** What one line contributes: when the raw line starts with "search",
      its whitespace-separated fields after the first; otherwise nothing. */
  function LineDomains(line: string): (r: seq<string>)
    ensures !HasPrefix(line, "search") ==> r == []
  {
    if HasPrefix(line, "search") then
      var fields := Fields(line);
      if |fields| > 1 then fields[1..] else []
    else []
  }

  /** The search domains of a file: every line's contribution, in file order. */
  function SearchDomains(lines: seq<string>): seq<string> {
    if lines == [] then []
    else SearchDomains(lines[..|lines| - 1]) + LineDomains(lines[|lines| - 1])
  }

  /** parseResolvConf: the open error or the scanner's error, each with its
      prefix, or the collected domains. */
  method ParseResolvConf(file: Result<seq<string>>, readErr: Option<string>) returns (r: Result<seq<string>>)
    ensures file.Err? ==> r == Err("failed to open resolv.conf: " + file.error)
    ensures file.Ok? && readErr.Some? ==> r == Err("error reading resolv.conf: " + readErr.value)
    ensures file.Ok? && readErr.None? ==> r == Ok(SearchDomains(file.value))
  {
    if file.Err? {
      return Err("failed to open resolv.conf: " + file.error);
    }
    var lines := file.value;
    var domains: seq<string> := [];
    var i := 0;
    while i < |lines|
      invariant 0 <= i <= |lines|
      invariant domains == SearchDomains(lines[..i])
    {
      assert lines[..i + 1][..i] == lines[..i];
      var line := lines[i];
      if HasPrefix(line, "search") {
        var fields := Fields(line);
        if |fields| > 1 {
          domains := domains + fields[1..];
        }
      }
      i := i + 1;
    }
    assert lines[..i] == lines;
    if readErr.Some? {
      return Err("error reading resolv.conf: " + readErr.value);
    }
    return Ok(domains);
  }

  /** The text of a line made of the words ws separated by single spaces
      starts with its first word. */
  lemma JoinWordsStartsWith(w: string, ds: seq<string>)
    ensures HasPrefix(JoinWords([w] + ds), w)
  {
    if ds != [] {
      assert ([w] + ds)[1..] == ds;
      assert (w + " " + JoinWords(ds))[..|w|] == w;
    }
  }

  lemma PrefixTransitive(s: string, w: string, p: string)
    requires HasPrefix(s, w) && HasPrefix(w, p)
    ensures HasPrefix(s, p)
  {
    assert s[..|p|] == s[..|w|][..|p|];
  }

  /** A line of words joined by single spaces whose first word merely
      starts with "search" ("searchx a b" as well as "search a b")
      contributes every following word. */
  lemma SearchLikeLine(w: string, ds: seq<string>)
    requires IsWord(w) && HasPrefix(w, "search")
    requires forall i :: 0 <= i < |ds| ==> IsWord(ds[i])
    ensures LineDomains(JoinWords([w] + ds)) == ds
  {
    var ws := [w] + ds;
    JoinWordsStartsWith(w, ds);
    PrefixTransitive(JoinWords(ws), w, "search");
    FieldsOfLine(w, ds);
    assert ws[1..] == ds;
  }

  /** The fields of such a line are its words. */
  lemma FieldsOfLine(w: string, ds: seq<string>)
    requires IsWord(w)
    requires forall i :: 0 <= i < |ds| ==> IsWord(ds[i])
    ensures Fields(JoinWords([w] + ds)) == [w] + ds
  {
    var ws := [w] + ds;
    forall i | 0 <= i < |ws|
      ensures IsWord(ws[i])
    {
      if i > 0 {
        assert ws[i] == ds[i - 1];
      }
    }
    FieldsOfJoinWords(ws);
  }

  /** A line holding only the keyword contributes nothing. */
  lemma SearchKeywordAlone()
    ensures LineDomains("search") == []
  {
    SearchLikeLine("search", []);
    assert [ "search" ] + [] == ["search"];
  }

  /** Leading white space is not trimmed: an indented search line is ignored. */
  lemma IndentedLineIgnored(line: string)
    requires |line| > 0 && IsSpace(line[0])
    ensures LineDomains(line) == []
  {
    assert !HasPrefix(line, "search") by {
      if |line| >= 6 {
        assert line[..6][0] == line[0];
      }
    }
  }

  /** One more line adds its own contribution at the end. */
  lemma SearchDomainsSnoc(lines: seq<string>, line: string)
    ensures SearchDomains(lines + [line]) == SearchDomains(lines) + LineDomains(line)
  {
    assert (lines + [line])[..|lines|] == lines;
  }

  /** Search lines accumulate in file order: a later line adds to the
      domains of an earlier one instead of replacing them. */
  lemma {:induction false} SearchDomainsAppend(a: seq<string>, b: seq<string>)
    ensures SearchDomains(a + b) == SearchDomains(a) + SearchDomains(b)
    decreases |b|
  {
    if b == [] {
      assert a + b == a;
    } else {
      var init, last := b[..|b| - 1], b[|b| - 1];
      SplitLast(a, b);
      SearchDomainsAppend(a, init);
      SearchDomainsSnoc(a + init, last);
      SearchDomainsSnoc(init, last);
      ConcatAssoc(SearchDomains(a), SearchDomains(init), LineDomains(last));
    }
  }

  lemma SplitLast(a: seq<string>, b: seq<string>)
    requires b != []
    ensures a + b == (a + b[..|b| - 1]) + [b[|b| - 1]]
    ensures b == b[..|b| - 1] + [b[|b| - 1]]
  {
  }

  lemma ConcatAssoc(x: seq<string>, y: seq<string>, z: seq<string>)
    ensures x + y + z == x + (y + z)
  {
  }
}
