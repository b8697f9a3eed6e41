/** The model selector: decides from the base URL whether the endpoint is the
    vendor's official API, and so which client class the factory builds. */
module Routing {
  import opened Wrappers

  /** The domain marker searched for in the lower-cased base URL. */
  const Marker: string := "deepseek.com"

  /** The two client classes the factory can return. */
  datatype ClientKind = Patched | Plain

  function LowerChar(c: char): char
  {
    if 'A' <= c <= 'Z' then (c as int + 32) as char else c
  }

  function UpperChar(c: char): char
  {
    if 'a' <= c <= 'z' then (c as int - 32) as char else c
  }

  /** ASCII lower-casing, character by character: no upper-case ASCII letter
      is left, and every other character is kept. */
  function Lower(s: string): (r: string)
    ensures |r| == |s|
    ensures forall i :: 0 <= i < |r| ==> !('A' <= r[i] <= 'Z')
    ensures forall i :: 0 <= i < |s| ==>
      r[i] == s[i] || ('A' <= s[i] <= 'Z' && r[i] as int == s[i] as int + 32)
  {
    seq(|s|, i requires 0 <= i < |s| => LowerChar(s[i]))
  }

  /** ASCII upper-casing, character by character. */
  function Upper(s: string): string
  {
    seq(|s|, i requires 0 <= i < |s| => UpperChar(s[i]))
  }

  /** `n` occurs in `h` starting at position `i`. */
  ghost predicate OccursAt(h: string, n: string, i: int)
  {
    0 <= i && i + |n| <= |h| && h[i..i + |n|] == n
  }

  /** The substring test `n in h`, as a left-to-right search.  Whatever it
      finds is a real occurrence; `ContainsSpec` adds that it misses none. */
  predicate Contains(h: string, n: string)
    ensures Contains(h, n) ==> exists i :: OccursAt(h, n, i)
    ensures |h| < |n| ==> !Contains(h, n)
    decreases |h|
  {
    if |h| < |n| then false
    else if h[..|n|] == n then assert OccursAt(h, n, 0); true
    else
      assert forall i :: OccursAt(h[1..], n, i) ==> OccursAt(h, n, i + 1) by {
        forall i | OccursAt(h[1..], n, i)
          ensures OccursAt(h, n, i + 1)
        {
          assert h[1..][i..i + |n|] == h[i + 1..i + 1 + |n|];
        }
      }
      Contains(h[1..], n)
  }

  /** Two URLs that differ only in the letter case of ASCII letters. */
  ghost predicate SameIgnoringCase(u: string, v: string)
  {
    |u| == |v| && forall i :: 0 <= i < |u| ==> LowerChar(u[i]) == LowerChar(v[i])
  }

  /** The companion predicate: a present URL whose lower-cased form contains
      the marker anywhere.  An absent URL is never the official API. */
  predicate IsDeepSeekOfficialApi(baseUrl: Option<string>)
    ensures IsDeepSeekOfficialApi(baseUrl) <==>
      baseUrl.Some? && exists i :: OccursAt(Lower(baseUrl.value), Marker, i)
  {
    if baseUrl.None? then false
    else ContainsSpec(Lower(baseUrl.value), Marker); Contains(Lower(baseUrl.value), Marker)
  }

  /** Python truthiness of an optional string: present and non-empty. */
  predicate Truthy(s: Option<string>)
  {
    s.Some? && |s.value| > 0
  }

  /** The factory's routing decision, written with its own inline test
      (truthiness of the URL instead of a comparison with `None`). */
  function CreateChatModel(baseUrl: Option<string>): (kind: ClientKind)
    ensures kind == Patched <==> IsDeepSeekOfficialApi(baseUrl)
    ensures !Truthy(baseUrl) ==> kind == Plain
  {
    if Truthy(baseUrl) && Contains(Lower(baseUrl.value), Marker) then Patched else Plain
  }

  /** The search finds `n` exactly when `n` occurs at some position of `h`. */
  lemma {:induction false} ContainsSpec(h: string, n: string)
    ensures Contains(h, n) <==> exists i :: OccursAt(h, n, i)
    decreases |h|
  {
    if |h| < |n| {
    } else if h[..|n|] == n {
      assert OccursAt(h, n, 0);
    } else {
      ContainsSpec(h[1..], n);
      if exists i :: OccursAt(h[1..], n, i) {
        var i :| OccursAt(h[1..], n, i);
        assert h[1..][i..i + |n|] == h[i + 1..i + 1 + |n|];
        assert OccursAt(h, n, i + 1);
      }
      if exists i :: OccursAt(h, n, i) {
        var i :| OccursAt(h, n, i);
        assert h[0..|n|] == h[..|n|];
        assert i != 0;
        assert h[1..][i - 1..i - 1 + |n|] == h[i..i + |n|];
        assert OccursAt(h[1..], n, i - 1);
      }
    }
  }

  /** Changing the letter case of a URL never changes the routing. */
  lemma CaseInsensitive(u: string, v: string)
    requires SameIgnoringCase(u, v)
    ensures IsDeepSeekOfficialApi(Some(u)) == IsDeepSeekOfficialApi(Some(v))
  {
    assert Lower(u) == Lower(v);
  }

  /** In particular the all-upper-case spelling routes like the original. */
  lemma UpperCaseRoutesAlike(u: string)
    ensures IsDeepSeekOfficialApi(Some(Upper(u))) == IsDeepSeekOfficialApi(Some(u))
  {
    assert SameIgnoringCase(Upper(u), u);
    CaseInsensitive(Upper(u), u);
  }

  /** Lower-casing works character by character, so it commutes with
      taking the middle part of a concatenation. */
  lemma LowerInfix(p: string, u: string, s: string)
    ensures Lower(p + u + s)[|p|..|p| + |u|] == Lower(u)
  {
    var w := p + u + s;
    forall j | 0 <= j < |u|
      ensures Lower(w)[|p| + j] == Lower(u)[j]
    {
      assert w[|p| + j] == u[j];
    }
  }

  lemma SliceOfSlice(w: string, a: nat, b: nat, i: nat, j: nat)
    requires a <= b <= |w| && i <= j <= b - a
    ensures w[a..b][i..j] == w[a + i..a + j]
  {
    forall k | 0 <= k < j - i
      ensures w[a..b][i..j][k] == w[a + i..a + j][k]
    {
      assert w[a..b][i..j][k] == w[a..b][i + k] == w[a + i + k];
    }
  }

  /** The match is unanchored: any text around an official URL keeps it official. */
  lemma Unanchored(p: string, u: string, s: string)
    requires IsDeepSeekOfficialApi(Some(u))
    ensures IsDeepSeekOfficialApi(Some(p + u + s))
  {
    var lu, lw := Lower(u), Lower(p + u + s);
    var i :| OccursAt(lu, Marker, i);
    LowerInfix(p, u, s);
    SliceOfSlice(lw, |p|, |p| + |u|, i, i + |Marker|);
    assert OccursAt(lw, Marker, |p| + i);
  }

  /** A URL in which the marker's first letter never appears is not official. */
  lemma FirstLetterMissing(h: string, n: string)
    requires |n| > 0
    requires forall i :: 0 <= i < |h| ==> h[i] != n[0]
    ensures !Contains(h, n)
  {
    ContainsSpec(h, n);
  }

  /** The documented official endpoint gets the patched client. */
  lemma OfficialEndpointExample()
    ensures CreateChatModel(Some("https://api.deepseek.com/v1")) == Patched
  {
    var h := Lower("https://api.deepseek.com/v1");
    assert h[12..24] == Marker;
    assert OccursAt(h, Marker, 12);
    ContainsSpec(h, Marker);
  }

  /** The documented proxy endpoint gets the plain client. */
  lemma ProxyEndpointExample()
    ensures CreateChatModel(Some("https://your-proxy.com/v1")) == Plain
  {
    var u := "https://your-proxy.com/v1";
    assert Lower(u) == u;
    FirstLetterMissing(Lower(u), Marker);
  }
}
