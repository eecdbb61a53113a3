/** http.Header as the proxy and the two servers use it. Go ranges over a map in an arbitrary
    order, so every such loop here picks its next key arbitrarily. */
module Headers {
  import opened Events
  import opened Enumerations
  import opened Maps
  import opened Text

  // ---------------------------------------------------------------- canonical keys

  predicate IsTokenChar(c: char) {
    || 'a' <= c <= 'z' || 'A' <= c <= 'Z' || '0' <= c <= '9' || c == '-'
    || c in "!#$%&'*+.^_`|~"
  }

  /** Upper case at the start and after a hyphen, lower case elsewhere. */
  function Cased(k: string, upper: bool): (r: string)
    ensures |r| == |k|
  {
    if k == "" then ""
    else
      var c := if upper then Upper(k[0]) else Lower(k[0]);
      [c] + Cased(k[1..], c == '-')
  }

  /** textproto.CanonicalMIMEHeaderKey: a key that is no token is left alone. */
  function Canonical(k: string): string {
    if forall i :: 0 <= i < |k| ==> IsTokenChar(k[i]) then Cased(k, true) else k
  }

  lemma {:induction false} CasedIsStable(k: string, upper: bool)
    requires forall i :: 0 <= i < |k| ==> IsTokenChar(k[i])
    ensures Cased(Cased(k, upper), upper) == Cased(k, upper)
    ensures forall i :: 0 <= i < |k| ==> IsTokenChar(Cased(k, upper)[i])
  {
    if k != "" {
      var c := if upper then Upper(k[0]) else Lower(k[0]);
      CasedIsStable(k[1..], c == '-');
      assert Cased(k, upper)[1..] == Cased(k[1..], c == '-');
    }
  }

  lemma CanonicalIsStable(k: string)
    ensures Canonical(Canonical(k)) == Canonical(k)
  {
    if forall i :: 0 <= i < |k| ==> IsTokenChar(k[i]) {
      CasedIsStable(k, true);
    }
  }

  predicate IsToken(k: string) {
    forall i :: 0 <= i < |k| ==> IsTokenChar(k[i])
  }

  lemma {:induction false} CasedKeepsLetters(k: string, upper: bool)
    ensures SameButCase(k, Cased(k, upper))
  {
    if k != "" {
      LowerIff(k[0], k[0]);
      CasedKeepsLetters(k[1..], (if upper then Upper(k[0]) else Lower(k[0])) == '-');
    }
  }

  lemma {:induction false} CasedOfSameLetters(j: string, k: string, upper: bool)
    requires SameButCase(j, k)
    ensures Cased(j, upper) == Cased(k, upper)
  {
    if j != "" {
      LowerIff(j[0], k[0]);
      assert SameLetter(j[0], k[0]);
      assert forall i :: 0 <= i < |j[1..]| ==> j[1..][i] == j[i + 1] && k[1..][i] == k[i + 1];
      CasedOfSameLetters(j[1..], k[1..], (if upper then Upper(j[0]) else Lower(j[0])) == '-');
    }
  }

  lemma SameButCaseTransitive(a: string, b: string, c: string)
    requires SameButCase(a, b) && SameButCase(c, b)
    ensures SameButCase(a, c)
  {
    forall i | 0 <= i < |a| ensures SameLetter(a[i], c[i]) {
      LowerIff(a[i], b[i]);
      LowerIff(c[i], b[i]);
      LowerIff(a[i], c[i]);
    }
  }

  /** Header names that are tokens share a canonical form exactly when they are equal but for the
      case of letters; any other name is its own canonical form. */
  lemma CanonicalIff(j: string, k: string)
    requires IsToken(j) && IsToken(k)
    ensures Canonical(j) == Canonical(k) <==> SameButCase(j, k)
  {
    CasedKeepsLetters(j, true);
    CasedKeepsLetters(k, true);
    if Canonical(j) == Canonical(k) {
      SameButCaseTransitive(j, Canonical(j), k);
    }
    if SameButCase(j, k) {
      CasedOfSameLetters(j, k, true);
    }
  }

  // ---------------------------------------------------------------- the operations on values

  function Values(h: Header, k: string): seq<string> {
    if k in h then h[k] else []
  }

  function Added(h: Header, k: string, v: string): Header {
    h[Canonical(k) := Values(h, Canonical(k)) + [v]]
  }

  function First(h: Header, k: string): string {
    var vs := Values(h, Canonical(k));
    if vs == [] then "" else vs[0]
  }

  /** http.Header held by reference, as dst is in copyHeaders(dst, src). */
  class HeaderMap {
    var m: Header

    constructor (m: Header)
      ensures this.m == m
    {
      this.m := m;
    }

    method Add(k: string, v: string)
      modifies this
      ensures m == Added(old(m), k, v)
    {
      var key := Canonical(k);
      m := m[key := Values(m, key) + [v]];
    }

    method Set(k: string, v: string)
      modifies this
      ensures m == old(m)[Canonical(k) := [v]]
    {
      m := m[Canonical(k) := [v]];
    }

    method Del(k: string)
      modifies this
      ensures m == old(m) - {Canonical(k)}
    {
      m := m - {Canonical(k)};
    }
  }

  // ---------------------------------------------------------------- copyHeaders

  predicate CanonicalKeys<T>(h: map<string, T>) {
    forall k :: k in h ==> Canonical(k) == k
  }

  function AddedAll(h: Header, k: string, vs: seq<string>): Header {
    if vs == [] then h else h[Canonical(k) := Values(h, Canonical(k)) + vs]
  }

  /** The outcome of copyHeaders when the runtime ranges over src in the given order. */
  function CopiedInOrder(dst: Header, src: Header, order: seq<string>): Header
    requires forall k :: k in order ==> k in src
    decreases |order|
  {
    if order == [] then dst
    else
      assert order[0] in order;
      CopiedInOrder(AddedAll(dst, order[0], src[order[0]]), src, order[1..])
  }

  /** Key by key: what dst had, followed by what src has; a key without values adds nothing. */
  function Copied(dst: Header, src: Header): Header {
    map k | k in dst.Keys + src.Keys && (k in dst || src[k] != []) :: Values(dst, k) + Values(src, k)
  }

  function Restricted(src: Header, keys: set<string>): Header {
    map k | k in src && k in keys :: src[k]
  }

  lemma CopyNothing(dst: Header)
    ensures Copied(dst, map[]) == dst
  {
    var none: Header := map[];
    assert forall k :: k in dst ==> Values(dst, k) + Values(none, k) == dst[k];
  }

  lemma CopyStepAt(dst: Header, src: Header, keys: set<string>, k: string, j: string)
    requires CanonicalKeys(src) && k in src && k in keys
    ensures AlikeAt(Copied(AddedAll(dst, k, src[k]), Restricted(src, keys - {k})),
                    Copied(dst, Restricted(src, keys)), j)
  {
    var some, all := Restricted(src, keys - {k}), Restricted(src, keys);
    var next := AddedAll(dst, k, src[k]);
    if j == k {
      assert Values(some, k) == [] && Values(all, k) == src[k];
      assert Values(next, k) + [] == Values(dst, k) + src[k];
    } else {
      assert Values(next, j) == Values(dst, j) && Values(some, j) == Values(all, j);
    }
  }

  lemma CopyStep(dst: Header, src: Header, keys: set<string>, k: string)
    requires CanonicalKeys(src) && k in src && k in keys
    ensures Copied(AddedAll(dst, k, src[k]), Restricted(src, keys - {k})) == Copied(dst, Restricted(src, keys))
  {
    var left := Copied(AddedAll(dst, k, src[k]), Restricted(src, keys - {k}));
    var right := Copied(dst, Restricted(src, keys));
    forall j ensures AlikeAt(left, right, j) {
      CopyStepAt(dst, src, keys, k, j);
    }
    AlikeEverywhere(left, right);
  }

  lemma {:induction false} CopiedPart(dst: Header, src: Header, order: seq<string>, keys: set<string>)
    requires CanonicalKeys(src) && keys <= src.Keys && Enumerates(order, keys)
    ensures CopiedInOrder(dst, src, order) == Copied(dst, Restricted(src, keys))
    decreases |order|
  {
    if order == [] {
      assert forall k :: k !in keys;
      assert Restricted(src, keys) == map[];
      CopyNothing(dst);
    } else {
      EnumeratesRest(order, keys);
      CopyStep(dst, src, keys, order[0]);
      CopiedPart(AddedAll(dst, order[0], src[order[0]]), src, order[1..], keys - {order[0]});
    }
  }

  /** With canonical source keys the result does not depend on the iteration order. */
  lemma CopyOrderDoesNotMatter(dst: Header, src: Header, order: seq<string>)
    requires CanonicalKeys(src) && Enumerates(order, src.Keys)
    ensures CopiedInOrder(dst, src, order) == Copied(dst, src)
  {
    CopiedPart(dst, src, order, src.Keys);
    assert Restricted(src, src.Keys) == src;
  }

  lemma {:induction false} CopyOneMore(dst: Header, src: Header, order: seq<string>, k: string)
    requires (forall j :: j in order ==> j in src) && k in src
    ensures (forall j :: j in order + [k] ==> j in src)
    ensures CopiedInOrder(dst, src, order + [k]) == AddedAll(CopiedInOrder(dst, src, order), k, src[k])
    decreases |order|
  {
    if order == [] {
      assert (order + [k])[1..] == [];
    } else {
      assert order[0] in order;
      assert (order + [k])[1..] == order[1..] + [k];
      CopyOneMore(AddedAll(dst, order[0], src[order[0]]), src, order[1..], k);
    }
  }

  method CopyHeaders(dst: HeaderMap, src: Header) returns (ghost order: seq<string>)
    modifies dst
    ensures Enumerates(order, src.Keys)
    ensures dst.m == CopiedInOrder(old(dst.m), src, order)
    ensures CanonicalKeys(src) ==> dst.m == Copied(old(dst.m), src)
  {
    var pending := src.Keys;
    order := [];
    while pending != {}
      invariant pending <= src.Keys && Enumerates(order, src.Keys - pending)
      invariant dst.m == CopiedInOrder(old(dst.m), src, order)
      decreases pending
    {
      var k :| k in pending;
      AddAll(dst, k, src[k]);
      CopyOneMore(old(dst.m), src, order, k);
      pending, order := pending - {k}, order + [k];
    }
    assert src.Keys - pending == src.Keys;
    if CanonicalKeys(src) {
      CopyOrderDoesNotMatter(old(dst.m), src, order);
    }
  }

  lemma AddedOneMore(h: Header, k: string, vs: seq<string>, v: string)
    ensures Added(AddedAll(h, k, vs), k, v) == AddedAll(h, k, vs + [v])
  {
    var key := Canonical(k);
    if vs == [] {
      assert vs + [v] == [v];
    } else {
      assert (Values(h, key) + vs) + [v] == Values(h, key) + (vs + [v]);
    }
  }

  lemma AddedUpTo(h: Header, k: string, vs: seq<string>, i: nat)
    requires i < |vs|
    ensures Added(AddedAll(h, k, vs[..i]), k, vs[i]) == AddedAll(h, k, vs[..i + 1])
  {
    AddedOneMore(h, k, vs[..i], vs[i]);
    assert vs[..i + 1] == vs[..i] + [vs[i]];
  }

  method AddAll(dst: HeaderMap, k: string, vs: seq<string>)
    modifies dst
    ensures dst.m == AddedAll(old(dst.m), k, vs)
  {
    for i := 0 to |vs|
      invariant dst.m == AddedAll(old(dst.m), k, vs[..i])
    {
      dst.Add(k, vs[i]);
      AddedUpTo(old(dst.m), k, vs, i);
    }
    assert vs[..|vs|] == vs;
  }

  // ---------------------------------------------------------------- what is forwarded upstream

  const HOP_BY_HOP: seq<string> := [
    "Connection", "Keep-Alive", "Proxy-Authenticate", "Proxy-Authorization",
    "Te", "Trailer", "Transfer-Encoding", "Upgrade"]

  const FORWARDED_FOR := "X-Forwarded-For"

  function WithoutKeys(h: Header, keys: seq<string>): Header {
    if keys == [] then h else WithoutKeys(h - {Canonical(keys[0])}, keys[1..])
  }

  lemma {:induction false} WithoutOneMore(h: Header, keys: seq<string>, k: string)
    ensures WithoutKeys(h, keys + [k]) == WithoutKeys(h, keys) - {Canonical(k)}
    decreases |keys|
  {
    if keys == [] {
      assert (keys + [k])[1..] == [];
    } else {
      assert (keys + [k])[1..] == keys[1..] + [k];
      WithoutOneMore(h - {Canonical(keys[0])}, keys[1..], k);
    }
  }

  lemma {:induction false} WithoutKeysIsDifference(h: Header, keys: seq<string>)
    requires forall k :: k in keys ==> Canonical(k) == k
    ensures WithoutKeys(h, keys) == h - (set k | k in keys)
    decreases |keys|
  {
    if keys == [] {
      assert h - {} == h;
    } else {
      assert keys[0] in keys;
      WithoutKeysIsDifference(h - {keys[0]}, keys[1..]);
      assert (set k | k in keys) == {keys[0]} + (set k | k in keys[1..]);
    }
  }

  method RemoveHopByHop(h: HeaderMap)
    modifies h
    ensures h.m == WithoutKeys(old(h.m), HOP_BY_HOP)
  {
    for i := 0 to |HOP_BY_HOP|
      invariant h.m == WithoutKeys(old(h.m), HOP_BY_HOP[..i])
    {
      WithoutOneMore(old(h.m), HOP_BY_HOP[..i], HOP_BY_HOP[i]);
      assert HOP_BY_HOP[..i + 1] == HOP_BY_HOP[..i] + [HOP_BY_HOP[i]];
      h.Del(HOP_BY_HOP[i]);
    }
    assert HOP_BY_HOP[..|HOP_BY_HOP|] == HOP_BY_HOP;
  }

  predicate WellCasedAt(k: string, upper: bool, i: nat)
    requires i < |k|
  {
    if i == 0 then (if upper then Upper(k[i]) == k[i] else Lower(k[i]) == k[i])
    else if k[i - 1] == '-' then Upper(k[i]) == k[i]
    else Lower(k[i]) == k[i]
  }

  /** k consists of words of letters, each with a capital, joined by hyphens. */
  predicate Capitalized(k: string) {
    forall i :: 0 <= i < |k| ==> CapitalizedAt(k, i)
  }

  predicate CapitalizedAt(k: string, i: nat)
    requires i < |k|
  {
    if i == 0 || k[i - 1] == '-' then 'A' <= k[i] <= 'Z' else 'a' <= k[i] <= 'z' || k[i] == '-'
  }

  lemma {:induction false} WellCasedFrom(k: string, upper: bool)
    requires forall i :: 0 <= i < |k| ==> WellCasedAt(k, upper, i)
    ensures Cased(k, upper) == k
  {
    if k != "" {
      assert WellCasedAt(k, upper, 0);
      var rest, upperNext := k[1..], k[0] == '-';
      forall i | 0 <= i < |rest| ensures WellCasedAt(rest, upperNext, i) {
        assert WellCasedAt(k, upper, i + 1);
      }
      WellCasedFrom(rest, upperNext);
      assert [k[0]] + rest == k;
    }
  }

  lemma CapitalizedIsCanonical(k: string)
    requires Capitalized(k)
    ensures Canonical(k) == k
  {
    forall i | 0 <= i < |k| ensures IsTokenChar(k[i]) && WellCasedAt(k, true, i) {
      assert CapitalizedAt(k, i);
    }
    WellCasedFrom(k, true);
  }

  lemma ConnectionKey(k: string)
    requires k == "Connection"
    ensures Canonical(k) == k
  {
    CapitalizedIsCanonical(k);
  }

  lemma KeepAliveKeys(k: string)
    requires k == "Keep-Alive" || k == "Upgrade"
    ensures Canonical(k) == k
  {
    CapitalizedIsCanonical(k);
  }

  lemma TrailerKeys(k: string)
    requires k == "Te" || k == "Trailer" || k == "Transfer-Encoding"
    ensures Canonical(k) == k
  {
    CapitalizedIsCanonical(k);
  }

  lemma ProxyAuthenticateKey(k: string)
    requires k == "Proxy-Authenticate"
    ensures Canonical(k) == k
  {
    CapitalizedIsCanonical(k);
  }

  lemma ProxyAuthorizationKey(k: string)
    requires k == "Proxy-Authorization"
    ensures Canonical(k) == k
  {
    CapitalizedIsCanonical(k);
  }

  lemma ForwardedForKey(k: string)
    requires k == "X-Forwarded-For"
    ensures Canonical(k) == k
  {
    CapitalizedIsCanonical(k);
  }

  lemma ListedKeysAreCanonical()
    ensures Canonical(FORWARDED_FOR) == FORWARDED_FOR
    ensures forall k :: k in HOP_BY_HOP ==> Canonical(k) == k
  {
    ForwardedForKey(FORWARDED_FOR);
    forall k | k in HOP_BY_HOP ensures Canonical(k) == k {
      if k == "Proxy-Authenticate" {
        ProxyAuthenticateKey(k);
      } else if k == "Proxy-Authorization" {
        ProxyAuthorizationKey(k);
      } else if k == "Te" || k == "Trailer" || k == "Transfer-Encoding" {
        TrailerKeys(k);
      } else if k == "Connection" {
        ConnectionKey(k);
      } else {
        KeepAliveKeys(k);
      }
    }
  }

  /** ServeHTTP appends the client's address to the first prior X-Forwarded-For value. */
  function WithForwardedFor(h: Header, clientIP: Option<string>): Header {
    if clientIP.None? then h
    else
      var prior := First(h, FORWARDED_FOR);
      h[Canonical(FORWARDED_FOR) := [if prior != "" then prior + ", " + clientIP.value else clientIP.value]]
  }

  /** The headers of the request sent upstream, from those the client sent. */
  function Forwarded(src: Header, clientIP: Option<string>): Header {
    WithForwardedFor(WithoutKeys(Copied(map[], src), HOP_BY_HOP), clientIP)
  }

  method SetForwardedFor(h: HeaderMap, clientIP: Option<string>)
    modifies h
    ensures h.m == WithForwardedFor(old(h.m), clientIP)
  {
    if clientIP.Some? {
      var prior := First(h.m, FORWARDED_FOR);
      if prior != "" {
        h.Set(FORWARDED_FOR, prior + ", " + clientIP.value);
      } else {
        h.Set(FORWARDED_FOR, clientIP.value);
      }
    }
  }

  lemma ForwardableKeys(src: Header)
    requires CanonicalKeys(src)
    ensures var kept := WithoutKeys(Copied(map[], src), HOP_BY_HOP);
      && (forall k :: k in kept <==> k in src && src[k] != [] && k !in HOP_BY_HOP)
      && (forall k :: k in kept ==> kept[k] == src[k])
  {
    ListedKeysAreCanonical();
    var copied := Copied(map[], src);
    WithoutKeysIsDifference(copied, HOP_BY_HOP);
    forall k | k in copied ensures k in src && copied[k] == src[k] {
      assert [] + src[k] == src[k];
    }
  }

  /** Key by key: every listed hop-by-hop name is gone, X-Forwarded-For gains the client, and
      every other key is forwarded with its values in order. */
  lemma ForwardedKeyByKey(src: Header, clientIP: Option<string>, k: string)
    requires CanonicalKeys(src)
    ensures var sent := Forwarded(src, clientIP);
      && (k in HOP_BY_HOP ==> k !in sent)
      && (k != FORWARDED_FOR || clientIP.None? ==>
            && (k in sent <==> k in src && src[k] != [] && k !in HOP_BY_HOP)
            && (k in sent ==> sent[k] == src[k]))
      && (k == FORWARDED_FOR && clientIP.Some? ==>
            && k in sent
            && sent[k] == [if k in src && src[k] != [] && src[k][0] != "" then src[k][0] + ", " + clientIP.value
                           else clientIP.value])
  {
    if k == FORWARDED_FOR {
      ForwardedForKeyChanges(src, clientIP);
    } else {
      OtherKeysAreForwarded(src, clientIP, k);
    }
  }

  /** None of the eight names goes upstream, whatever the client sent under it. */
  lemma HopByHopNamesStay(src: Header, clientIP: Option<string>)
    requires CanonicalKeys(src)
    ensures var sent := Forwarded(src, clientIP);
      && "Connection" !in sent && "Keep-Alive" !in sent && "Upgrade" !in sent && "Te" !in sent
      && "Trailer" !in sent && "Transfer-Encoding" !in sent
      && "Proxy-Authenticate" !in sent && "Proxy-Authorization" !in sent
  {
    forall k | k in HOP_BY_HOP ensures k !in Forwarded(src, clientIP) {
      ForwardedKeyByKey(src, clientIP, k);
    }
    assert HOP_BY_HOP[0] == "Connection" && HOP_BY_HOP[1] == "Keep-Alive" && HOP_BY_HOP[7] == "Upgrade";
    assert HOP_BY_HOP[4] == "Te" && HOP_BY_HOP[5] == "Trailer" && HOP_BY_HOP[6] == "Transfer-Encoding";
    assert HOP_BY_HOP[2] == "Proxy-Authenticate" && HOP_BY_HOP[3] == "Proxy-Authorization";
  }

  lemma OtherKeysAreForwarded(src: Header, clientIP: Option<string>, k: string)
    requires CanonicalKeys(src) && k != FORWARDED_FOR
    ensures var sent := Forwarded(src, clientIP);
      && (k in sent <==> k in src && src[k] != [] && k !in HOP_BY_HOP)
      && (k in sent ==> sent[k] == src[k])
  {
    ListedKeysAreCanonical();
    ForwardableKeys(src);
  }

  lemma ForwardedForKeyChanges(src: Header, clientIP: Option<string>)
    requires CanonicalKeys(src)
    ensures var sent, k := Forwarded(src, clientIP), FORWARDED_FOR;
      && k !in HOP_BY_HOP
      && (clientIP.None? ==> (k in sent <==> k in src && src[k] != []) && (k in sent ==> sent[k] == src[k]))
      && (clientIP.Some? ==>
            && k in sent
            && sent[k] == [if k in src && src[k] != [] && src[k][0] != "" then src[k][0] + ", " + clientIP.value
                           else clientIP.value])
  {
    ListedKeysAreCanonical();
    ForwardableKeys(src);
  }

  // ---------------------------------------------------------------- flattening

  function Join(vs: seq<string>, sep: string): string {
    if vs == [] then ""
    else if |vs| == 1 then vs[0]
    else vs[0] + sep + Join(vs[1..], sep)
  }

  lemma {:induction false} JoinGrows(vs: seq<string>, sep: string, v: string)
    requires vs != []
    ensures Join(vs + [v], sep) == Join(vs, sep) + sep + v
    decreases |vs|
  {
    if |vs| == 1 {
      assert (vs + [v])[1..] == [v];
    } else {
      assert (vs + [v])[1..] == vs[1..] + [v];
      JoinGrows(vs[1..], sep, v);
    }
  }

  /** The chain of addresses sent upstream is complete exactly when the client sent no
      X-Forwarded-For line, or one that is not empty; of several lines only the first is kept. */
  lemma ForwardedChainIsComplete(src: Header, clientIP: string)
    requires CanonicalKeys(src)
    ensures var prior := Values(src, FORWARDED_FOR);
      Values(Forwarded(src, Some(clientIP)), FORWARDED_FOR) == [Join(prior + [clientIP], ", ")]
      <==> prior == [] || (|prior| == 1 && prior[0] != "")
  {
    ListedKeysAreCanonical();
    ForwardedKeyByKey(src, Some(clientIP), FORWARDED_FOR);
    var prior := Values(src, FORWARDED_FOR);
    if prior == [] {
      assert prior + [clientIP] == [clientIP];
    } else {
      JoinGrows(prior, ", ", clientIP);
      if |prior| > 1 {
        assert |Join(prior, ", ")| >= |prior[0]| + 2;
      }
    }
  }

  /** flattenHeaders, in server and in web. */
  function Flattened(h: Header): map<string, string> {
    map k | k in h :: Join(h[k], ", ")
  }

  method FlattenHeaders(h: Header) returns (m: map<string, string>)
    ensures m == Flattened(h)
  {
    m := map[];
    var pending := h.Keys;
    while pending != {}
      invariant pending <= h.Keys
      invariant m == Flattened(h - pending)
      decreases pending
    {
      var k :| k in pending;
      m := m[k := Join(h[k], ", ")];
      pending := pending - {k};
    }
  }

  /** h is an outcome of unflattenHeaders on m for some iteration order: one value per
      canonical key, taken from one of the keys spelled that way. */
  ghost predicate Unflattens(m: map<string, string>, h: Header) {
    && (forall k :: k in m ==> Canonical(k) in h)
    && (forall c :: c in h ==> exists k :: k in m && Canonical(k) == c && h[c] == [m[k]])
  }

  /** unflattenHeaders, and the loop of handleReplay that rebuilds the headers. */
  method UnflattenHeaders(m: map<string, string>) returns (h: Header)
    ensures Unflattens(m, h)
  {
    var built := new HeaderMap(map[]);
    var pending := m.Keys;
    while pending != {}
      invariant pending <= m.Keys
      invariant Unflattens(m - pending, built.m)
      decreases pending
    {
      var k :| k in pending;
      UnflattensOneMore(m, pending, built.m, k);
      built.Set(k, m[k]);
      pending := pending - {k};
    }
    assert m - pending == m;
    h := built.m;
  }

  lemma UnflattensOneMore(m: map<string, string>, pending: set<string>, h: Header, k: string)
    requires Unflattens(m - pending, h) && k in pending && k in m
    ensures Unflattens(m - (pending - {k}), h[Canonical(k) := [m[k]]])
  {
    SetUnflattens(m - pending, h, k, m[k]);
    assert (m - pending)[k := m[k]] == m - (pending - {k});
  }

  lemma SetUnflattens(m: map<string, string>, h: Header, k: string, v: string)
    requires Unflattens(m, h) && k !in m
    ensures Unflattens(m[k := v], h[Canonical(k) := [v]])
  {
    var m', h' := m[k := v], h[Canonical(k) := [v]];
    forall c | c in h' ensures exists j :: j in m' && Canonical(j) == c && h'[c] == [m'[j]] {
      if c == Canonical(k) {
        assert k in m';
      } else {
        var j :| j in m && Canonical(j) == c && h[c] == [m[j]];
        assert j in m';
      }
    }
  }

  /** Whatever was unflattened has canonical keys with one value each. */
  lemma UnflattenedShape(m: map<string, string>, h: Header)
    requires Unflattens(m, h)
    ensures CanonicalKeys(h) && forall c :: c in h ==> |h[c]| == 1
  {
    forall c | c in h ensures Canonical(c) == c && |h[c]| == 1 {
      var k :| k in m && Canonical(k) == c && h[c] == [m[k]];
      CanonicalIsStable(k);
    }
  }

  /** flatten after unflatten is the identity on canonical-key maps, for any iteration order;
      so there unflattening has one outcome. */
  lemma FlattenUndoesUnflatten(m: map<string, string>, h: Header)
    requires CanonicalKeys(m) && Unflattens(m, h)
    ensures Flattened(h) == m
    ensures h == map k | k in m :: [m[k]]
  {
    forall c | c in h ensures c in m && h[c] == [m[c]] {
      var k :| k in m && Canonical(k) == c && h[c] == [m[k]];
    }
  }

  /** unflatten after flatten is idempotent on canonical headers: the first pass joins the
      values of each key, and a second pass changes nothing. */
  lemma UnflattenFlattenIsIdempotent(h: Header, once: Header, twice: Header)
    requires CanonicalKeys(h)
    requires Unflattens(Flattened(h), once) && Unflattens(Flattened(once), twice)
    ensures twice == once
    ensures forall k :: k in once <==> k in h
    ensures forall k :: k in h ==> once[k] == [Join(h[k], ", ")]
  {
    FlattenUndoesUnflatten(Flattened(h), once);
    FlattenUndoesUnflatten(Flattened(once), twice);
  }
}
