/**
 The egress ceiling check (api/egress_ceiling.go). Address and CIDR syntax
 (section 3.1 of RFC 4632) is left to `parse`, spaces to `trim` and letter case
 and the trailing dot to `normal`; the check's own logic is over their results.
 */
module EgressCeiling {
  import opened Counting

  // An IPv4 or IPv6 address: how many bits it has, and its value.
  datatype Addr = Addr(bits: nat, value: nat)

  // A network, masked to its prefix: its first address and its prefix length.
  datatype Prefix = Prefix(base: Addr, ones: nat)

  predicate Masked(p: Prefix) {
    p.ones <= p.base.bits && p.base.value % Pow2(p.base.bits - p.ones) == 0
  }

  type Net = p: Prefix | Masked(p) witness Prefix(Addr(0, 0), 0)

  function Size(n: Net): (r: nat)
    ensures r > 0
  {
    Pow2(n.base.bits - n.ones)
  }

  datatype Parsed = Ip(addr: Addr) | Cidr(net: Net) | Name

  datatype Text = Text(trim: string -> string, normal: string -> string, parse: string -> Parsed)

  // IPNet.Contains, on the masked bits.
  predicate Contains(n: Net, a: Addr) {
    a.bits == n.base.bits && a.value / Size(n) == n.base.value / Size(n)
  }

  // The addresses a network denotes, as a range.
  predicate InRange(n: Net, a: Addr) {
    a.bits == n.base.bits && n.base.value <= a.value < n.base.value + Size(n)
  }

  // --- Arithmetic of aligned ranges ---

  lemma {:induction false} Pow2Splits(a: nat, b: nat)
    ensures Pow2(a + b) == Pow2(a) * Pow2(b)
  {
    if a > 0 { Pow2Splits(a - 1, b); }
  }

  lemma BlockOf(x: nat, base: nat, size: nat)
    requires size > 0 && base % size == 0
    ensures x / size == base / size <==> base <= x < base + size
  {
    var q, k := x / size, base / size;
    assert base == k * size && q * size <= x < q * size + size;
    if q < k { MulStep(q, k, size); } else if k < q { MulStep(k, q, size); }
  }

  lemma MulStep(i: nat, j: nat, size: nat)
    requires i < j
    ensures i * size + size <= j * size
  {
    MulOrder(i + 1, j, size);
  }

  lemma ContainsIsRange(n: Net, a: Addr)
    ensures Contains(n, a) <==> InRange(n, a)
  {
    BlockOf(a.value, n.base.value, Size(n));
  }

  // A block whose first address lies in a block at least as big lies in it whole.
  lemma AlignedFits(e: nat, c: nat, size: nat, times: nat)
    requires size > 0 && times > 0 && e % size == 0 && c % (times * size) == 0
    requires c <= e < c + times * size
    ensures e + size <= c + times * size
  {
    var i, k := e / size, c / (times * size);
    assert e == i * size && c == k * (times * size);
    assert c == (k * times) * size;
    var j := k * times + times;
    assert c + times * size == j * size;
    if i >= j { MulOrder(j, i, size); }
    MulStep(i, j, size);
  }

  // --- Addresses ---

  // A network with a free bit is the two networks with one bit more, and one
  // without is its address alone.
  lemma HalvesSplit(n: Net, a: Addr)
    ensures n.ones == n.base.bits ==> (InRange(n, a) <==> a == n.base)
    ensures n.ones < n.base.bits ==>
              var half := Pow2(n.base.bits - n.ones - 1);
              var low := Prefix(n.base, n.ones + 1);
              var high := Prefix(n.base.(value := n.base.value + half), n.ones + 1);
              && Masked(low) && Masked(high) && (InRange(n, a) <==> InRange(low, a) || InRange(high, a))
              && !(InRange(low, a) && InRange(high, a))
  {
    if n.ones < n.base.bits { HalfAligned(n.base.value, Pow2(n.base.bits - n.ones - 1)); }
  }

  lemma HalfAligned(v: nat, half: nat)
    requires half > 0 && v % (2 * half) == 0
    ensures v % half == 0 && (v + half) % half == 0
  {
    var k := v / (2 * half);
    assert v == 2 * half * k;
    assert v == (2 * k) * half;
    Multiple(2 * k, half, v);
    assert v + half == (2 * k + 1) * half;
    Multiple(2 * k + 1, half, v + half);
  }

  lemma Multiple(k: nat, size: nat, v: nat)
    requires size > 0 && v == k * size
    ensures v % size == 0
  {
    var q, r := v / size, v % size;
    assert v == q * size + r;
    if q < k { MulOrder(q + 1, k, size); } else { MulOrder(k, q, size); }
  }

  ghost predicate Subnet(e: Net, c: Net) { forall a :: InRange(e, a) ==> InRange(c, a) }

  // The comparison of prefix lengths and first address decides containment.
  lemma SubnetIff(e: Net, c: Net)
    ensures Subnet(e, c) <==> c.base.bits == e.base.bits && c.ones <= e.ones && Contains(c, e.base)
  {
    ContainsIsRange(c, e.base);
    if Subnet(e, c) {
      SubnetIsSmaller(e, c);
    } else if c.base.bits == e.base.bits && c.ones <= e.ones && Contains(c, e.base) {
      SmallerIsSubnet(e, c);
    }
  }

  lemma SmallerIsSubnet(e: Net, c: Net)
    requires c.base.bits == e.base.bits && c.ones <= e.ones && InRange(c, e.base)
    ensures Subnet(e, c)
  {
    Pow2Splits(e.ones - c.ones, e.base.bits - e.ones);
    AlignedFits(e.base.value, c.base.value, Size(e), Pow2(e.ones - c.ones));
  }

  lemma SubnetIsSmaller(e: Net, c: Net)
    requires Subnet(e, c)
    ensures c.base.bits == e.base.bits && c.ones <= e.ones && InRange(c, e.base)
  {
    var last := Addr(e.base.bits, e.base.value + Size(e) - 1);
    assert InRange(e, e.base) && InRange(e, last);
    assert InRange(c, e.base) && InRange(c, last);
    if c.ones > e.ones { Pow2Grows(c.base.bits - c.ones, e.base.bits - e.ones); }
  }

  // What an entry allows.
  predicate Denotes(p: Parsed, a: Addr) {
    match p
    case Ip(b) => a == b
    case Cidr(n) => InRange(n, a)
    case Name => false
  }

  // One ceiling entry covers a whole address entry.
  ghost predicate CoversAddresses(c: Parsed, e: Parsed) {
    !c.Name? && forall a :: Denotes(e, a) ==> Denotes(c, a)
  }

  // --- Host names ---

  predicate HasSuffix(s: string, suffix: string) {
    |suffix| <= |s| && s[|s| - |suffix|..] == suffix
  }

  predicate Wild(pattern: string) { "*." <= pattern }

  // "*.example.org" allows every name that ends in ".example.org"; any other
  // pattern the name itself.
  predicate AllowsHost(pattern: string, host: string) {
    if Wild(pattern) then HasSuffix(host, pattern[1..]) else host == pattern
  }

  lemma AllowsIff(parent: string, pattern: string, host: string)
    ensures AllowsHost("*." + parent, host) <==> exists front: string :: host == front + ("." + parent)
    ensures !(exists rest :: pattern == "*." + rest) ==> (AllowsHost(pattern, host) <==> host == pattern)
  {
    var dotted := "." + parent;
    assert ("*." + parent)[1..] == dotted && "*." <= "*." + parent;
    if HasSuffix(host, dotted) { assert host == host[..|host| - |dotted|] + dotted; }
    if Wild(pattern) { assert pattern == "*." + pattern[2..]; }
  }

  ghost predicate CoversHosts(c: string, e: string) {
    forall host :: AllowsHost(e, host) ==> AllowsHost(c, host)
  }

  lemma SuffixOfSuffix(s: string, a: string, b: string)
    requires HasSuffix(s, a) && HasSuffix(a, b)
    ensures HasSuffix(s, b)
  {
    assert s[|s| - |b|..] == s[|s| - |a|..][|a| - |b|..];
  }

  // --- The check ---

  predicate WithinByIp(parse: string -> Parsed, ip: Addr, c: string) {
    match parse(c)
    case Ip(b) => b == ip
    case Cidr(n) => Contains(n, ip)
    case Name => false
  }

  predicate WithinByNet(parse: string -> Parsed, e: Net, c: string) {
    match parse(c)
    case Ip(b) => e.ones == e.base.bits && b == e.base
    case Cidr(n) => n.base.bits == e.base.bits && n.ones <= e.ones && Contains(n, e.base)
    case Name => false
  }

  predicate WithinByName(d: string, c: string) {
    c == d || (Wild(c) && HasSuffix(d, c[1..]))
  }

  predicate WithinOne(text: Text, entry: string, c: string) {
    match text.parse(entry)
    case Ip(a) => WithinByIp(text.parse, a, c)
    case Cidr(n) => WithinByNet(text.parse, n, c)
    case Name => WithinByName(text.normal(entry), c)
  }

  // entryWithinCeiling.
  method EntryWithin(text: Text, entry: string, ceiling: seq<string>) returns (within: bool)
    ensures within <==> exists i :: 0 <= i < |ceiling| && WithinOne(text, entry, ceiling[i])
  {
    for i := 0 to |ceiling|
      invariant forall j :: 0 <= j < i ==> !WithinOne(text, entry, ceiling[j])
    {
      if WithinOne(text, entry, ceiling[i]) { return true; }
    }
    return false;
  }

  // An address entry passes a ceiling entry exactly when that entry covers
  // all of its addresses.
  lemma AddressEntryIff(text: Text, entry: string, c: string)
    requires !text.parse(entry).Name?
    ensures WithinOne(text, entry, c) <==> CoversAddresses(text.parse(c), text.parse(entry))
  {
    var e, p := text.parse(entry), text.parse(c);
    match (e, p)
    case (Ip(a), Ip(b)) => assert Denotes(e, a);
    case (Ip(a), Cidr(n)) =>
      ContainsIsRange(n, a);
      assert Denotes(e, a);
    case (Cidr(m), Ip(b)) => SingleIff(m, b);
    case (Cidr(m), Cidr(n)) =>
      SubnetIff(m, n);
      SubnetDenotes(m, n);
    case (_, Name) =>
    case (Name, _) =>
  }

  lemma SubnetDenotes(m: Net, n: Net)
    ensures Subnet(m, n) <==> forall a :: Denotes(Cidr(m), a) ==> Denotes(Cidr(n), a)
  {
    if !Subnet(m, n) {
      var a :| InRange(m, a) && !InRange(n, a);
      assert Denotes(Cidr(m), a);
    } else {
      forall a | Denotes(Cidr(m), a) ensures Denotes(Cidr(n), a) { assert InRange(m, a); }
    }
  }

  lemma SingleIff(m: Net, b: Addr)
    ensures (m.ones == m.base.bits && b == m.base) <==> (forall a :: Denotes(Cidr(m), a) ==> Denotes(Ip(b), a))
  {
    assert Denotes(Cidr(m), m.base);
    if m.ones < m.base.bits {
      Pow2Grows(0, m.base.bits - m.ones);
      assert Denotes(Cidr(m), Addr(m.base.bits, m.base.value + 1));
    }
  }

  lemma WildUnderWild(d: string, c: string, host: string)
    requires Wild(c) && Wild(d) && HasSuffix(d, c[1..]) && HasSuffix(host, d[1..])
    ensures HasSuffix(host, c[1..])
  {
    assert c[1] == '.' && d[0] == '*';
    assert d[|d| - |c[1..]|] == c[1..][0];
    assert |c| <= |d|;
    assert HasSuffix(d[1..], c[1..]) by { assert d[1..][|d[1..]| - |c[1..]|..] == d[|d| - |c[1..]|..]; }
    SuffixOfSuffix(host, d[1..], c[1..]);
  }

  lemma CoveredIsWithin(d: string, c: string)
    requires CoversHosts(c, d)
    ensures WithinByName(d, c)
  {
    if !Wild(d) {
      assert AllowsHost(d, d);
    } else {
      var host := d[1..];
      assert AllowsHost(d, host) by { assert host[0..] == host; }
      var longer := "x" + host;
      assert AllowsHost(d, longer) by { assert longer[1..] == host; }
      assert AllowsHost(c, host) && AllowsHost(c, longer);
      assert HasSuffix(d, host);
      SuffixOfSuffix(d, host, c[1..]);
    }
  }

  // A name entry passes a ceiling entry exactly when that entry allows every
  // host it allows.
  lemma NameEntryIff(text: Text, entry: string, c: string)
    requires text.parse(entry).Name?
    ensures WithinOne(text, entry, c) <==> CoversHosts(c, text.normal(entry))
  {
    var d := text.normal(entry);
    if WithinOne(text, entry, c) {
      forall host | AllowsHost(d, host) ensures AllowsHost(c, host) {
        if c != d && Wild(d) { WildUnderWild(d, c, host); }
      }
    } else if CoversHosts(c, d) {
      CoveredIsWithin(d, c);
    }
  }

  // --- The whole policy ---

  predicate HasWord(list: seq<string>, w: string) { w in list }

  // An entry the check passes over: blank, or one of the owner's own leases.
  predicate Skipped(text: Text, own: string -> bool, entry: string) {
    text.trim(entry) == "" || own(text.trim(entry))
  }

  ghost predicate EntryOk(text: Text, own: string -> bool, ceiling: seq<string>, entry: string) {
    Skipped(text, own, entry) || exists i :: 0 <= i < |ceiling| && WithinOne(text, text.trim(entry), ceiling[i])
  }

  ghost predicate PolicyOk(
    text: Text, own: string -> bool, ceiling: seq<string>, policy: string, allow: seq<string>) {
    if policy == "none" then true
    else if policy == "internet" then "internet" in ceiling
    else if policy == "lan" then "lan" in ceiling || "internet" in ceiling
    else forall k :: 0 <= k < |allow| ==> EntryOk(text, own, ceiling, allow[k])
  }

  // outsideCeilingLocked: what reaches past the ceiling; nothing exactly when
  // the policy stays inside it.
  method OutsideCeiling(text: Text, own: string -> bool, ceiling: seq<string>, policy: string, allow: seq<string>)
    returns (out: seq<string>)
    ensures out == [] <==> PolicyOk(text, own, ceiling, policy, allow)
    ensures policy !in {"none", "internet", "lan"} ==>
              forall e :: e in out <==>
                exists k :: 0 <= k < |allow| && e == text.trim(allow[k]) && !EntryOk(text, own, ceiling, allow[k])
  {
    if policy == "none" { return []; }
    if policy == "internet" { return if HasWord(ceiling, "internet") then [] else ["network_policy internet"]; }
    if policy == "lan" {
      return if HasWord(ceiling, "lan") || HasWord(ceiling, "internet") then [] else ["network_policy lan"];
    }
    out := [];
    for k := 0 to |allow|
      invariant out == [] <==> forall j :: 0 <= j < k ==> EntryOk(text, own, ceiling, allow[j])
      invariant forall e :: e in out <==>
                  exists j :: 0 <= j < k && e == text.trim(allow[j]) && !EntryOk(text, own, ceiling, allow[j])
    {
      var e := text.trim(allow[k]);
      if e == "" || own(e) { continue; }
      var within := EntryWithin(text, e, ceiling);
      if !within { out := out + [e]; }
    }
  }

  // How far a policy that is one word lets a lease reach.
  function Reach(word: string): nat {
    if word == "internet" then 2 else if word == "lan" then 1 else 0
  }

  // Such a policy is inside the ceiling if and only if it lets nothing through,
  // or the ceiling has a word that reaches as far.
  lemma WordIff(text: Text, own: string -> bool, ceiling: seq<string>, policy: string, allow: seq<string>)
    requires policy in {"none", "lan", "internet"}
    ensures PolicyOk(text, own, ceiling, policy, allow) <==>
            Reach(policy) == 0 || exists i :: 0 <= i < |ceiling| && Reach(ceiling[i]) >= Reach(policy)
  {
  }

  // A ceiling entry covers everything an allowlist entry allows.
  ghost predicate Covers(text: Text, c: string, e: string) {
    if text.parse(e).Name? then CoversHosts(c, text.normal(e)) else CoversAddresses(text.parse(c), text.parse(e))
  }

  lemma EntryOkIff(text: Text, own: string -> bool, ceiling: seq<string>, entry: string)
    ensures EntryOk(text, own, ceiling, entry) <==>
            Skipped(text, own, entry) || exists i :: 0 <= i < |ceiling| && Covers(text, ceiling[i], text.trim(entry))
  {
    var e := text.trim(entry);
    forall i | 0 <= i < |ceiling| ensures WithinOne(text, e, ceiling[i]) <==> Covers(text, ceiling[i], e) {
      if text.parse(e).Name? { NameEntryIff(text, e, ceiling[i]); } else { AddressEntryIff(text, e, ceiling[i]); }
    }
  }

  // A restricted allowlist has nothing outside the ceiling if and only if
  // every entry, in meaning, is covered by a single ceiling entry.
  lemma InsideInMeaning(text: Text, own: string -> bool, ceiling: seq<string>, allow: seq<string>)
    ensures PolicyOk(text, own, ceiling, "restricted", allow) <==>
            forall k :: 0 <= k < |allow| && !Skipped(text, own, allow[k]) ==>
              exists i :: 0 <= i < |ceiling| && Covers(text, ceiling[i], text.trim(allow[k]))
  {
    assert PolicyOk(text, own, ceiling, "restricted", allow) <==>
           forall k :: 0 <= k < |allow| ==> EntryOk(text, own, ceiling, allow[k]);
    forall k | 0 <= k < |allow|
      ensures EntryOk(text, own, ceiling, allow[k]) <==>
              Skipped(text, own, allow[k]) ||
              exists i :: 0 <= i < |ceiling| && Covers(text, ceiling[i], text.trim(allow[k]))
    {
      EntryOkIff(text, own, ceiling, allow[k]);
    }
  }
}
