// Host names, display labels and the pool of dynamic application ids
// (clean_label and engine_get_dyn_app in daemon/ndpi_engine.c).
module Labels {
  import opened Basics

  const HOST_CAP: nat := 83
  const WORD_CAP: nat := 63
  const POOL_SIZE: nat := 64
  const FIRST_DYNAMIC: nat := 400

  // The components of a host name between its dots.
  function Split(s: string): (parts: seq<string>)
    ensures parts != []
  {
    if s == "" then [""] else Before(s[0], Split(s[1..]))
  }

  function Before(c: char, parts: seq<string>): (r: seq<string>)
    requires parts != []
    ensures r != []
  {
    if c == '.' then [""] + parts else [[c] + parts[0]] + parts[1..]
  }

  lemma BeforeJoin(c: char, a: seq<string>, b: seq<string>)
    requires a != []
    ensures Before(c, a + b) == Before(c, a) + b
  {
  }

  function StripDot(s: string): string {
    if s != "" && s[|s| - 1] == '.' then s[..|s| - 1] else s
  }

  function Capitalised(w: string): string {
    if w != "" && 'a' <= w[0] <= 'z' then [(w[0] as int - 32) as char] + w[1..] else w
  }

  // The second-to-last component, or the only one.
  function Registered(parts: seq<string>): string
    requires parts != []
  {
    if |parts| >= 2 then parts[|parts| - 2] else parts[0]
  }

  function Trimmed(host: string): string {
    StripDot(Capped(host, HOST_CAP))
  }

  function CleanLabel(host: string): (word: string)
    ensures |word| <= WORD_CAP
  {
    if Trimmed(host) == "" then host
    else
      CapitalisedLength(Capped(Registered(Split(Trimmed(host))), WORD_CAP));
      Capitalised(Capped(Registered(Split(Trimmed(host))), WORD_CAP))
  }

  lemma CapitalisedLength(w: string)
    ensures |Capitalised(w)| == |w|
  {
  }

  lemma {:induction false} SplitJoin(p: string, q: string)
    ensures Split(p + "." + q) == Split(p) + Split(q)
  {
    var s := p + "." + q;
    if p == "" {
      assert s[1..] == q;
    } else {
      hide Before;
      SplitJoin(p[1..], q);
      assert s[1..] == p[1..] + "." + q;
      BeforeJoin(p[0], Split(p[1..]), Split(q));
    }
  }

  predicate Dotless(s: string, from: nat, to: nat)
    requires to <= |s|
  {
    forall k :: from <= k < to ==> s[k] != '.'
  }

  lemma {:induction false} SplitDotless(s: string)
    requires Dotless(s, 0, |s|)
    ensures Split(s) == [s]
  {
    if s != "" {
      assert Dotless(s[1..], 0, |s| - 1);
      SplitDotless(s[1..]);
      assert s == [s[0]] + s[1..];
    }
  }

  lemma SplitDotted(s: string)
    requires '.' in s
    ensures |Split(s)| >= 2
  {
    var i :| 0 <= i < |s| && s[i] == '.';
    assert s == s[..i] + "." + s[i + 1..];
    SplitJoin(s[..i], s[i + 1..]);
  }

  // Putting subdomains in front of a host keeps its label, as long as the result
  // fits the 84-byte buffer and the host has a dot of its own.
  lemma SubdomainKeepsLabel(sub: string, host: string)
    requires '.' in StripDot(host) && |sub + "." + host| <= HOST_CAP
    ensures CleanLabel(sub + "." + host) == CleanLabel(host)
  {
    hide Split, Capitalised;
    var long := sub + "." + host;
    assert StripDot(long) == sub + "." + StripDot(host);
    SplitJoin(sub, StripDot(host));
    SplitDotted(StripDot(host));
  }

  // Without a dot of its own the host is itself the top-level component, and the
  // label is taken from what stands in front of it.
  lemma BareHostTakesLabel(sub: string, host: string)
    requires Dotless(StripDot(host), 0, |StripDot(host)|) && Dotless(sub, 0, |sub|)
    requires 0 < |sub| && |sub + "." + host| <= HOST_CAP && |sub| <= WORD_CAP
    ensures CleanLabel(sub + "." + host) == Capitalised(sub)
  {
    hide Split, Capitalised, Dotless;
    var long, bare := sub + "." + host, StripDot(host);
    if host == "" {
      assert long == sub + "." && StripDot(long) == sub;
      SplitDotless(sub);
    } else {
      assert StripDot(long) == sub + "." + bare;
      SplitJoin(sub, bare);
      SplitDotless(sub);
      SplitDotless(bare);
    }
  }

  // For every host: all subdomains that fit keep its label exactly when the host,
  // a trailing dot aside, has a dot of its own, or is too long for any to fit.
  lemma SubdomainsKeepLabelIff(host: string)
    ensures (forall sub :: sub != "" && |sub + "." + host| <= 83 ==>
              CleanLabel(sub + "." + host) == CleanLabel(host))
       <==> '.' in StripDot(host) || |host| + 2 > 83
  {
    hide CleanLabel, Dotless;
    if '.' in StripDot(host) {
      forall sub | |sub + "." + host| <= HOST_CAP ensures CleanLabel(sub + "." + host) == CleanLabel(host) {
        SubdomainKeepsLabel(sub, host);
      }
    } else if |host| + 2 <= HOST_CAP {
      NoDots(StripDot(host));
      NoDots("a");
      NoDots("b");
      BareHostTakesLabel("a", host);
      BareHostTakesLabel("b", host);
      assert Capitalised("a")[0] == 'A' && Capitalised("b")[0] == 'B';
    }
  }

  lemma NoDots(s: string)
    requires '.' !in s
    ensures Dotless(s, 0, |s|)
  {
  }

  // A host that reaches the label and loses it: it has a dot, but only at its end.
  lemma TrailingDotChangesLabel()
    ensures !Rejected("com.")
    ensures CleanLabel("www" + "." + "com.") != CleanLabel("com.")
  {
    hide CleanLabel, Dotless;
    NotRejected();
    NoDots("www");
    NoDots("com");
    assert StripDot("com.") == "com";
    BareHostTakesLabel("www", "com.");
    OwnLabel("com.");
    assert Capitalised("com")[1] == 'o' && Capitalised("www")[1] == 'w';
  }

  lemma OwnLabel(host: string)
    requires Dotless(StripDot(host), 0, |StripDot(host)|) && 0 < |StripDot(host)| && |host| <= WORD_CAP
    ensures CleanLabel(host) == Capitalised(StripDot(host))
  {
    hide Dotless;
    SplitDotless(StripDot(host));
  }

  lemma NotRejected()
    ensures !Rejected("com.")
  {
    assert "com." == "com" + "." + "";
    SplitJoin("com", "");
    assert TopLevel("com.") == "" by {
      hide Split;
      SplitDotless("");
    }
    assert "com."[3] == '.';
    TooLong("com.", ".arpa");
    TooLong("com.", ".in-addr.");
  }

  lemma {:induction false} TooLong(s: string, part: string)
    requires |part| > |s|
    ensures !Contains(s, part)
  {
    if s != "" {
      TooLong(s[1..], part);
    }
  }

  // The label in plain terms: of a host that ends in two components, the first of the
  // two, cut to 63 characters, with a capital for a small first letter.
  lemma LabelIsSecondToLast(front: string, word: string, tld: string, dot: string)
    requires Dotless(word, 0, |word|) && Dotless(tld, 0, |tld|) && tld != "" && (dot == "" || dot == ".")
    requires front == "" || front[|front| - 1] == '.'
    requires |front + word + "." + tld + dot| <= 83
    ensures var text := CleanLabel(front + word + "." + tld + dot);
      && |text| == (if |word| <= 63 then |word| else 63)
      && (forall i :: 0 < i < |text| ==> text[i] == word[i])
      && (word != "" ==>
            text[0] as int == if 'a' <= word[0] <= 'z' then word[0] as int - 32 else word[0] as int)
  {
    hide CleanLabel, Capitalised, Dotless;
    var host := front + word + "." + tld + dot;
    assert StripDot(host) == front + word + "." + tld by { NoDotAtEnd(front + word + ".", tld); }
    SecondToLast(front, word, tld);
    LabelOf(host, word);
    CapitalisedIs(Capped(word, WORD_CAP));
  }

  // Of a longer host only the first 83 characters are looked at.
  lemma OnlyTheFirst83(host: string)
    requires |host| >= 83
    ensures CleanLabel(host) == CleanLabel(host[..83])
  {
    hide Split, Registered, Capitalised;
    assert |host| == 83 ==> host[..83] == host;
    assert Trimmed(host) == Trimmed(host[..83]);
  }

  lemma NoDotAtEnd(s: string, tld: string)
    requires tld != "" && Dotless(tld, 0, |tld|)
    ensures StripDot(s + tld) == s + tld && StripDot(s + tld + ".") == s + tld
  {
    assert (s + tld)[|s + tld| - 1] == tld[|tld| - 1];
  }

  lemma SecondToLast(front: string, word: string, tld: string)
    requires Dotless(word, 0, |word|) && Dotless(tld, 0, |tld|)
    requires front == "" || front[|front| - 1] == '.'
    ensures Registered(Split(front + word + "." + tld)) == word
  {
    hide Split;
    var p := front + word;
    SplitJoin(p, tld);
    SplitDotless(tld);
    assert Dotless(p, |front|, |p|) by {
      assert forall k :: |front| <= k < |p| ==> p[k] == word[k - |front|];
    }
    LastComponent(p, |front|);
    assert p[|front|..] == word;
  }

  lemma LabelOf(host: string, word: string)
    requires |host| <= 83 && StripDot(host) != "" && Registered(Split(StripDot(host))) == word
    ensures CleanLabel(host) == Capitalised(Capped(word, WORD_CAP))
  {
    hide Split, Registered, Capitalised;
  }

  lemma CapitalisedIs(w: string)
    ensures var text := Capitalised(w);
      && |text| == |w| && (forall i :: 0 < i < |w| ==> text[i] == w[i])
      && (w != "" ==> text[0] as int == if 'a' <= w[0] <= 'z' then w[0] as int - 32 else w[0] as int)
  {
  }

  // What the daemon computes with strrchr, strchr and a backward scan.
  method ComputeCleanLabel(host: string) returns (word: string)
    ensures word == CleanLabel(host)
  {
    hide Split, Registered, Dotless;
    var buf := Capped(host, HOST_CAP);
    if buf != "" && buf[|buf| - 1] == '.' {
      buf := buf[..|buf| - 1];
    }
    if buf == "" {
      return host;
    }
    var last := LastDot(buf);
    var sld := ComponentBefore(buf, last);
    var end := NextDot(buf, sld);
    IsRegistered(buf, last, sld, end);
    word := Capped(buf[sld..end], WORD_CAP);
    if word != "" && 'a' <= word[0] <= 'z' {
      word := [(word[0] as int - 32) as char] + word[1..];
    }
  }

  method LastDot(buf: string) returns (last: int)
    ensures -1 <= last < |buf|
    ensures Dotless(buf, last + 1, |buf|)
    ensures last >= 0 ==> buf[last] == '.'
  {
    last := |buf| - 1;
    while last >= 0 && buf[last] != '.'
      invariant -1 <= last < |buf| && Dotless(buf, last + 1, |buf|)
    {
      last := last - 1;
    }
  }

  method NextDot(buf: string, from: nat) returns (end: nat)
    requires from <= |buf|
    ensures from <= end <= |buf| && Dotless(buf, from, end) && (end < |buf| ==> buf[end] == '.')
  {
    end := from;
    while end < |buf| && buf[end] != '.'
      invariant from <= end <= |buf| && Dotless(buf, from, end)
    {
      end := end + 1;
    }
  }

  // Scans back from the last dot to the start of the component before it.
  method ComponentBefore(buf: string, last: int) returns (sld: nat)
    requires -1 <= last < |buf|
    ensures last <= 0 ==> sld == 0
    ensures last > 0 ==> sld <= last && Dotless(buf, sld, last) && (sld > 0 ==> buf[sld - 1] == '.')
  {
    if last <= 0 {
      return 0;
    }
    var prev := last - 1;
    while prev > 0 && buf[prev] != '.'
      invariant 0 <= prev < last && Dotless(buf, prev + 1, last)
    {
      prev := prev - 1;
    }
    sld := if buf[prev] == '.' then prev + 1 else 0;
  }

  lemma IsRegistered(buf: string, last: int, sld: nat, end: nat)
    requires -1 <= last < |buf| && Dotless(buf, last + 1, |buf|) && (last >= 0 ==> buf[last] == '.')
    requires sld <= end <= |buf| && Dotless(buf, sld, end) && (end < |buf| ==> buf[end] == '.')
    requires last <= 0 ==> sld == 0
    requires last > 0 ==> sld <= last && Dotless(buf, sld, last) && (sld > 0 ==> buf[sld - 1] == '.')
    ensures buf[sld..end] == Registered(Split(buf))
  {
    hide Split;
    if last < 0 {
      assert end == |buf| && buf[sld..end] == buf;
      SplitDotless(buf);
    } else {
      var p, q := buf[..last], buf[last + 1..];
      assert buf == p + "." + q;
      SplitJoin(p, q);
      SplitDotless(q);
      assert end == last;
      LastComponent(p, sld);
    }
  }

  lemma LastComponent(p: string, sld: nat)
    requires sld <= |p| && Dotless(p, sld, |p|) && (sld > 0 ==> p[sld - 1] == '.')
    ensures TopLevel(p) == p[sld..]
  {
    hide Split;
    var w := p[sld..];
    SplitDotless(w);
    if sld > 0 {
      assert p == p[..sld - 1] + "." + w;
      SplitJoin(p[..sld - 1], w);
    } else {
      assert p == w;
    }
  }

  // ---- The pool of dynamic labels ------------------------------------------

  function Contains(s: string, part: string): bool {
    part <= s || (s != "" && Contains(s[1..], part))
  }

  function TopLevel(host: string): string {
    var parts := Split(host);
    parts[|parts| - 1]
  }

  // Bare, local and reverse-DNS names get no application.
  predicate Rejected(host: string) {
    || '.' !in host
    || TopLevel(host) == "local" || TopLevel(host) == "localdomain"
    || Contains(host, ".arpa") || Contains(host, ".in-addr.")
  }

  function IndexOf(pool: seq<string>, word: string): (i: nat)
    ensures i <= |pool|
    ensures i < |pool| ==> pool[i] == word
    ensures forall k :: 0 <= k < i ==> pool[k] != word
  {
    if pool == [] || pool[0] == word then 0
    else
      1 + IndexOf(pool[1..], word)
  }

  ghost predicate ValidPool(pool: seq<string>) {
    && |pool| <= POOL_SIZE
    && forall i, j :: 0 <= i < j < |pool| ==> pool[i] != pool[j]
  }

  // The id a host has in a pool that does not grow; 0 for none. `native` is the
  // nDPI host database, 0 where it knows nothing specific.
  function IdIn(native: string -> U16, pool: seq<string>, host: string): U16
    requires |pool| <= POOL_SIZE
  {
    if Rejected(host) then 0
    else if native(host) != 0 then native(host)
    else
      var i := IndexOf(pool, CleanLabel(host));
      if i < |pool| then FIRST_DYNAMIC + i else 0
  }

  // The pool after a host asked for its id: it grows by at most the host's label.
  function Grown(native: string -> U16, pool: seq<string>, host: string): (r: seq<string>)
    requires |pool| <= POOL_SIZE
    ensures |r| <= POOL_SIZE && pool <= r
  {
    if Rejected(host) || native(host) != 0 || CleanLabel(host) in pool || |pool| == POOL_SIZE
    then pool else pool + [CleanLabel(host)]
  }

  lemma GrownIsValid(native: string -> U16, pool: seq<string>, host: string)
    requires ValidPool(pool)
    ensures ValidPool(Grown(native, pool, host))
  {
    hide CleanLabel, Rejected;
  }

  // An id once given to a host is its id in every later pool.
  lemma IdIsForever(native: string -> U16, pool: seq<string>, later: seq<string>, host: string)
    requires pool <= later && |later| <= POOL_SIZE
    requires IdIn(native, pool, host) != 0
    ensures IdIn(native, later, host) == IdIn(native, pool, host)
  {
    hide CleanLabel, Rejected;
    if !Rejected(host) && native(host) == 0 {
      var i, j := IndexOf(pool, CleanLabel(host)), IndexOf(later, CleanLabel(host));
      assert forall k :: 0 <= k < |pool| ==> later[k] == pool[k];
    }
  }

  // A dynamic id names the host's own label.
  lemma DynamicIdNamesLabel(native: string -> U16, pool: seq<string>, host: string)
    requires |pool| <= POOL_SIZE && native(host) == 0 && IdIn(native, pool, host) != 0
    ensures 400 <= IdIn(native, pool, host) < 400 + |pool| <= 464
    ensures pool[IdIn(native, pool, host) - 400] == CleanLabel(host)
  {
    hide CleanLabel, Rejected;
  }

  // `part` lies somewhere in `s`.
  ghost predicate Occurs(s: string, part: string) {
    exists a, b :: s == a + part + b
  }

  lemma OccursLater(s: string, a: string, part: string, b: string)
    requires s == a + part + b
    ensures part <= s || (s != "" && s[1..] == a[1..] + part + b)
  {
    if a == "" {
      assert s == part + b;
    }
  }

  lemma {:induction false} ContainsIsOccurs(s: string, part: string)
    ensures Contains(s, part) <==> Occurs(s, part)
  {
    if part <= s {
      assert s == "" + part + s[|part|..];
    } else {
      if s != "" {
        ContainsIsOccurs(s[1..], part);
        if a, b :| s[1..] == a + part + b {
          assert s == ([s[0]] + a) + part + b;
        }
      }
      if a, b :| s == a + part + b {
        OccursLater(s, a, part, b);
      }
    }
  }

  predicate EndsIn(s: string, end: string) {
    |end| <= |s| && s[|s| - |end|..] == end
  }

  lemma TopLevelIs(host: string, word: string)
    requires '.' in host && Dotless(word, 0, |word|)
    ensures TopLevel(host) == word <==> EndsIn(host, "." + word)
  {
    hide Split;
    var last := |host| - 1;
    while host[last] != '.'
      invariant 0 <= last < |host| && Dotless(host, last + 1, |host|)
      invariant exists i :: 0 <= i <= last && host[i] == '.'
      decreases last
    {
      last := last - 1;
    }
    LastComponent(host, last + 1);
    if EndsIn(host, "." + word) {
      var at := |host| - |word| - 1;
      assert host[at..] == "." + word;
      assert host[at] == '.' && forall i :: 0 <= i < |word| ==> host[at + 1 + i] == word[i];
      assert at == last;
      assert host[last + 1..] == word;
    }
    if host[last + 1..] == word {
      assert host[last..] == "." + word;
    }
  }

  // Which hosts get no application: bare names, local ones and reverse DNS.
  lemma RejectedIff(host: string)
    ensures Rejected(host) <==>
      || '.' !in host || EndsIn(host, ".local") || EndsIn(host, ".localdomain")
      || Occurs(host, ".arpa") || Occurs(host, ".in-addr.")
  {
    hide TopLevel, Contains, Occurs, EndsIn;
    ContainsIsOccurs(host, ".arpa");
    ContainsIsOccurs(host, ".in-addr.");
    if '.' in host {
      NoDots("local");
      NoDots("localdomain");
      TopLevelIs(host, "local");
      TopLevelIs(host, "localdomain");
      assert "." + "local" == ".local" && "." + "localdomain" == ".localdomain";
    }
  }

  // The id of a host once it has been asked for: none if it is rejected, nDPI's if it
  // knows the host, else one of 400 to 463, unless 64 other labels fill the pool.
  lemma AskedIsNamed(native: string -> U16, pool: seq<string>, host: string)
    requires |pool| <= 64
    ensures var id := IdIn(native, Grown(native, pool, host), host);
      && (Rejected(host) ==> id == 0)
      && (!Rejected(host) && native(host) != 0 ==> id == native(host))
      && (!Rejected(host) && native(host) == 0 ==>
            if |pool| == 64 && CleanLabel(host) !in pool then id == 0 else 400 <= id <= 463)
    ensures var after := Grown(native, pool, host);
      && (after == pool || after == pool + [CleanLabel(host)])
      && (after != pool <==>
            !Rejected(host) && native(host) == 0 && CleanLabel(host) !in pool && |pool| < 64)
  {
    hide CleanLabel, Rejected;
    var after := Grown(native, pool, host);
    if !Rejected(host) && native(host) == 0 {
      var i := IndexOf(after, CleanLabel(host));
      assert CleanLabel(host) in after ==> i < |after|;
    }
  }
}
