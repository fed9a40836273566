/** What strings.ReplaceAll leaves of the substring that it replaces. */
module Replacing {
  import opened Strings

  lemma OccursInTail(a: string, b: string, sub: string, i: nat)
    ensures OccursAt(a + b, sub, |a| + i) <==> OccursAt(b, sub, i)
  {
    assert forall k :: 0 <= k < |b| ==> (a + b)[|a| + k] == b[k];
    if OccursAt(a + b, sub, |a| + i) {
      forall k | 0 <= k < |sub| ensures b[i + k] == sub[k] {
        assert (a + b)[|a| + i + k] == sub[k];
      }
    }
  }

  /** An occurrence that starts in a lies in a, or a ends with a prefix of it. */
  lemma OccursInHead(a: string, b: string, sub: string, i: nat)
    requires i < |a|
    ensures OccursAt(a + b, sub, i) ==>
              if i + |sub| <= |a| then OccursAt(a, sub, i) else sub[..|a| - i] == a[i..]
  {
  }

  lemma OccursAtFront(s: string, sub: string)
    ensures OccursAt(s, sub, 0) <==> |sub| <= |s| && s[..|sub|] == sub
  {
    if OccursAt(s, sub, 0) {
      assert forall k :: 0 <= k < |sub| ==> s[0 + k] == sub[k];
    }
  }

  lemma TailLacks(s: string, sub: string)
    requires s != "" && !Contains(s, sub)
    ensures !Contains(s[1..], sub)
  {
    forall i: nat ensures !OccursAt(s[1..], sub, i) {
      OccursInTail([s[0]], s[1..], sub, i);
      assert [s[0]] + s[1..] == s;
    }
  }

  /** Text without the substring is unchanged. */
  lemma {:induction false} ReplaceNothing(s: string, sub: string, repl: string)
    requires sub != "" && !Contains(s, sub)
    ensures ReplaceAll(s, sub, repl) == s
  {
    if |s| >= |sub| {
      OccursAtFront(s, sub);
      TailLacks(s, sub);
      ReplaceNothing(s[1..], sub, repl);
    }
  }

  lemma ReplaceFront(sub: string, rest: string, repl: string)
    requires sub != ""
    ensures ReplaceAll(sub + rest, sub, repl) == repl + ReplaceAll(rest, sub, repl)
  {
    assert (sub + rest)[..|sub|] == sub && (sub + rest)[|sub|..] == rest;
  }

  lemma NotAcross(x: string, c: char, y: string, sub: string)
    requires sub != "" && c !in sub
    ensures var s := x + [c] + y;
            |s| >= |sub| && s[..|sub|] == sub <==> |x| >= |sub| && x[..|sub|] == sub
  {
    var s := x + [c] + y;
    assert s[|x|] == c;
    if |s| >= |sub| && |x| < |sub| { assert s[..|sub|][|x|] == c; }
    if |x| >= |sub| { assert s[..|sub|] == x[..|sub|]; }
  }

  lemma ReplaceStep(s: string, sub: string, repl: string)
    requires s != "" && sub != "" && !(|s| >= |sub| && s[..|sub|] == sub)
    ensures ReplaceAll(s, sub, repl) == [s[0]] + ReplaceAll(s[1..], sub, repl)
  {
    if |s| < |sub| { assert [s[0]] + s[1..] == s; }
  }

  /** A character that does not occur in the substring separates the replacements on its two sides. */
  lemma {:induction false} ReplaceSplits(x: string, c: char, y: string, sub: string, repl: string)
    requires sub != "" && c !in sub
    ensures ReplaceAll(x + [c] + y, sub, repl) == ReplaceAll(x, sub, repl) + [c] + ReplaceAll(y, sub, repl)
    decreases |x|
  {
    var s := x + [c] + y;
    NotAcross(x, c, y, sub);
    if |x| >= |sub| && x[..|sub|] == sub {
      assert s[|sub|..] == x[|sub|..] + [c] + y;
      ReplaceSplits(x[|sub|..], c, y, sub, repl);
    } else {
      ReplaceStep(s, sub, repl);
      if x == "" {
        assert s[1..] == y;
      } else {
        assert s[1..] == x[1..] + [c] + y;
        ReplaceSplits(x[1..], c, y, sub, repl);
        ReplaceStep(x, sub, repl);
      }
    }
  }

  // ---- Whether the substring is gone ---------------------------------------------------------------

  /** repl, written at position j of sub, disagrees with it. */
  ghost predicate Clash(sub: string, j: nat, repl: string) {
    exists k: nat :: k < |repl| && j + k < |sub| && sub[j + k] != repl[k]
  }

  /** No occurrence of sub can straddle a boundary between repl and the text around it. */
  ghost predicate Apart(sub: string, repl: string) {
    && (forall j :: 0 < j < |sub| ==> Clash(sub, j, repl))
    && (forall j :: 0 < j < |sub| && j <= |repl| ==> sub[..j] != repl[|repl| - j..])
  }

  /** r agrees with s up to j, and where they stop to agree before n, a replacement stands. */
  predicate AgreeUpTo(r: string, s: string, sub: string, repl: string, n: nat, j: nat) {
    && j <= n && j <= |r| && j <= |s| && r[..j] == s[..j]
    && (j < n ==> OccursAt(r, repl, j) && OccursAt(s, sub, j))
  }

  lemma AgreeFurther(c: char, t: string, u: string, sub: string, repl: string, n: nat, j: nat)
    requires AgreeUpTo(t, u, sub, repl, n, j)
    ensures AgreeUpTo([c] + t, [c] + u, sub, repl, n + 1, j + 1)
  {
    OccursInTail([c], t, repl, j);
    OccursInTail([c], u, sub, j);
    assert ([c] + t)[..j + 1] == [c] + t[..j] == [c] + u[..j] == ([c] + u)[..j + 1];
  }

  lemma {:induction false} FirstReplacement(s: string, sub: string, repl: string, n: nat) returns (j: nat)
    requires sub != "" && n <= |s|
    ensures AgreeUpTo(ReplaceAll(s, sub, repl), s, sub, repl, n, j)
    decreases n
  {
    var r := ReplaceAll(s, sub, repl);
    if n == 0 || |s| < |sub| {
      j := n;
    } else if s[..|sub|] == sub {
      j := 0;
      OccursAtFront(s, sub);
      assert r[..|repl|] == repl;
      OccursAtFront(r, repl);
    } else {
      var i := FirstReplacement(s[1..], sub, repl, n - 1);
      j := i + 1;
      AgreeFurther(s[0], ReplaceAll(s[1..], sub, repl), s[1..], sub, repl, n - 1, i);
      assert s == [s[0]] + s[1..];
    }
  }

  /** Two occurrences agree where they overlap. */
  lemma NoClash(r: string, sub: string, repl: string, j: nat)
    ensures OccursAt(r, sub, 0) && OccursAt(r, repl, j) ==> !Clash(sub, j, repl)
  {
    if OccursAt(r, sub, 0) && OccursAt(r, repl, j) {
      forall k: nat | k < |repl| && j + k < |sub| ensures sub[j + k] == repl[k] {
        assert r[0 + (j + k)] == sub[j + k];
      }
    }
  }

  lemma NotAtFront(s: string, sub: string, repl: string)
    requires sub != "" && Apart(sub, repl) && |s| >= |sub| && s[..|sub|] != sub
    ensures !OccursAt(ReplaceAll(s, sub, repl), sub, 0)
  {
    var r := ReplaceAll(s, sub, repl);
    var j := FirstReplacement(s, sub, repl, |sub|);
    OccursAtFront(s, sub);
    OccursAtFront(r, sub);
    NoClash(r, sub, repl, j);
  }

  lemma {:induction false} NoneAppears(s: string, sub: string, repl: string, i: nat)
    requires sub != "" && Apart(sub, repl) && !Contains(repl, sub)
    ensures !OccursAt(ReplaceAll(s, sub, repl), sub, i)
    decreases |s|
  {
    if |s| >= |sub| && s[..|sub|] == sub {
      var t := ReplaceAll(s[|sub|..], sub, repl);
      if i >= |repl| {
        NoneAppears(s[|sub|..], sub, repl, i - |repl|);
        OccursInTail(repl, t, sub, i - |repl|);
      } else {
        OccursInHead(repl, t, sub, i);
        assert !OccursAt(repl, sub, i);
        assert i + |sub| > |repl| && 0 < |repl| - i < |sub| ==> sub[..|repl| - i] != repl[|repl| - (|repl| - i)..];
      }
    } else if |s| >= |sub| {
      if i > 0 {
        NoneAppears(s[1..], sub, repl, i - 1);
        OccursInTail([s[0]], ReplaceAll(s[1..], sub, repl), sub, i - 1);
      } else {
        NotAtFront(s, sub, repl);
      }
    }
  }

  /** Where the substring was, its replacement is. */
  lemma {:induction false} StillThere(s: string, sub: string, repl: string, i: nat)
    requires sub != "" && OccursAt(s, sub, i)
    ensures Contains(ReplaceAll(s, sub, repl), repl)
    decreases |s|
  {
    var r := ReplaceAll(s, sub, repl);
    OccursAtFront(s, sub);
    if s[..|sub|] == sub {
      assert r[..|repl|] == repl;
      OccursAtFront(r, repl);
      assert OccursAt(r, repl, 0);
    } else {
      var t := ReplaceAll(s[1..], sub, repl);
      assert s == [s[0]] + s[1..];
      OccursInTail([s[0]], s[1..], sub, i - 1);
      StillThere(s[1..], sub, repl, i - 1);
      var k: nat :| OccursAt(t, repl, k);
      OccursInTail([s[0]], t, repl, k);
      assert OccursAt(r, repl, k + 1);
    }
  }

  lemma OccursWithin(s: string, mid: string, sub: string)
    requires Contains(s, mid) && Contains(mid, sub)
    ensures Contains(s, sub)
  {
    var i: nat :| i <= |s| && OccursAt(s, mid, i);
    var k: nat :| k <= |mid| && OccursAt(mid, sub, k);
    forall n | 0 <= n < |sub| ensures s[i + k + n] == sub[n] {
      assert s[i + (k + n)] == mid[k + n];
    }
    assert OccursAt(s, sub, i + k);
  }

  /** The substring remains in the output exactly when it was there and its replacement brings it back. */
  lemma RemainsIff(s: string, sub: string, repl: string)
    requires sub != "" && Apart(sub, repl)
    ensures Contains(ReplaceAll(s, sub, repl), sub) <==> Contains(s, sub) && Contains(repl, sub)
  {
    if !Contains(s, sub) {
      ReplaceNothing(s, sub, repl);
    } else if !Contains(repl, sub) {
      forall i: nat ensures !OccursAt(ReplaceAll(s, sub, repl), sub, i) {
        NoneAppears(s, sub, repl, i);
      }
    } else {
      var i: nat :| OccursAt(s, sub, i);
      StillThere(s, sub, repl, i);
      OccursWithin(ReplaceAll(s, sub, repl), repl, sub);
    }
  }

  // ---- Addresses of upstreams and of the proxy -----------------------------------------------------

  /** The proxy's own address, as handleMetadata forms it. */
  function ProxyBase(tls: bool, host: string): string { (if tls then "https" else "http") + "://" + host }

  /** What makes upstream and root + suffix apart for each address root of a proxy. */
  predicate FitsAddress(upstream: string, suffix: string) {
    && |upstream| > 2 && upstream[0] == 'h' && upstream[1] == 't' && upstream[|upstream| - 1] != '/'
    && (forall j :: 0 < j < |upstream| - 1 && upstream[j] == 'h' ==> upstream[j + 1] != 't')
    && upstream[|upstream| - 1] != 'h'
    && |suffix| > 1 && suffix[0] == '/' && 'h' !in suffix
    && (forall j :: 0 <= j < |upstream| - 1 && upstream[j] == '/' ==> upstream[j + 1] != suffix[1])
  }

  lemma AddressIsApart(upstream: string, suffix: string, tls: bool, host: string)
    requires FitsAddress(upstream, suffix)
    ensures Apart(upstream, ProxyBase(tls, host) + suffix)
  {
    var root := ProxyBase(tls, host);
    var repl := root + suffix;
    assert repl[0] == 'h' && repl[1] == 't';
    forall j | 0 < j < |upstream| ensures Clash(upstream, j, repl) {
      if upstream[j] == 'h' { assert upstream[j + 1] != repl[1]; } else { assert upstream[j + 0] != repl[0]; }
    }
    forall j | 0 < j < |upstream| && j <= |repl| ensures upstream[..j] != repl[|repl| - j..] {
      SuffixIsApart(upstream, suffix, root, j);
    }
  }

  lemma SuffixIsApart(upstream: string, suffix: string, root: string, j: nat)
    requires FitsAddress(upstream, suffix)
    requires 0 < j < |upstream| && j <= |root + suffix|
    ensures upstream[..j] != (root + suffix)[|root + suffix| - j..]
  {
    var repl := root + suffix;
    var end := repl[|repl| - j..];
    if j <= |suffix| {
      assert end[0] == suffix[|suffix| - j];
    } else {
      var k := j - |suffix|;
      assert end[k] == suffix[0] && end[k + 1] == suffix[1];
      assert upstream[..j][k] == upstream[k] && upstream[..j][k + 1] == upstream[k + 1];
    }
  }

  lemma NotIntoSuffix(upstream: string, suffix: string, root: string, i: nat)
    requires FitsAddress(upstream, suffix) && |root| < i + |upstream| <= |root + suffix|
    ensures !OccursAt(root + suffix, upstream, i)
  {
    var s := root + suffix;
    if i >= |root| {
      assert s[i + 0] == suffix[i - |root|] != 'h';
    } else {
      var k := |root| - i;
      assert s[i + k] == suffix[0];
      if k + 1 < |upstream| {
        assert s[i + (k + 1)] == suffix[1];
        assert upstream[k] == '/' ==> upstream[k + 1] != suffix[1];
      }
    }
  }

  /** An upstream address is in a proxy's only within its host part. */
  lemma OccursInRoot(upstream: string, suffix: string, root: string)
    requires FitsAddress(upstream, suffix)
    ensures Contains(root + suffix, upstream) <==> Contains(root, upstream)
  {
    forall i: nat ensures OccursAt(root + suffix, upstream, i) <==> OccursAt(root, upstream, i) {
      if |root| < i + |upstream| <= |root + suffix| {
        NotIntoSuffix(upstream, suffix, root, i);
      }
    }
    if i: nat :| OccursAt(root + suffix, upstream, i) {
      assert OccursAt(root, upstream, i);
    }
    if i: nat :| OccursAt(root, upstream, i) {
      assert OccursAt(root + suffix, upstream, i);
    }
  }

  /** After the rewriting of metadata, the upstream's address remains if and only if it was there and the
      proxy's own address brings it in. */
  lemma AddressRemainsIff(body: string, upstream: string, suffix: string, tls: bool, host: string)
    requires FitsAddress(upstream, suffix)
    ensures Contains(ReplaceAll(body, upstream, ProxyBase(tls, host) + suffix), upstream)
            <==> Contains(body, upstream) && Contains(ProxyBase(tls, host), upstream)
  {
    AddressIsApart(upstream, suffix, tls, host);
    RemainsIff(body, upstream, ProxyBase(tls, host) + suffix);
    OccursInRoot(upstream, suffix, ProxyBase(tls, host));
  }

  predicate NoEmptySegment(s: string) { forall i :: 0 <= i < |s| - 1 && s[i] == '/' ==> s[i + 1] != '/' }

  lemma SegmentsLackAddress(s: string, upstream: string, k: nat)
    requires NoEmptySegment(s) && k < |upstream| - 1 && upstream[k] == '/' == upstream[k + 1]
    ensures !Contains(s, upstream)
  {
    forall i: nat ensures !OccursAt(s, upstream, i) {
      assert i + |upstream| <= |s| && s[i + k] == '/' ==> s[i + k + 1] != '/';
    }
  }

  /** In a body, an upstream URL that stands between delimiters becomes a URL of the proxy. */
  lemma UrlIsRewritten(x: string, c: char, rest: string, d: char, y: string, upstream: string, repl: string)
    requires upstream != "" && c !in upstream && d !in upstream && !Contains(rest, upstream)
    ensures ReplaceAll(x + [c] + (upstream + rest + [d] + y), upstream, repl)
            == ReplaceAll(x, upstream, repl) + [c] + (repl + rest + [d] + ReplaceAll(y, upstream, repl))
  {
    ReplaceSplits(x, c, upstream + rest + [d] + y, upstream, repl);
    ReplaceSplits(upstream + rest, d, y, upstream, repl);
    ReplaceFront(upstream, rest, repl);
    ReplaceNothing(rest, upstream, repl);
  }
}
