/** There is a suite with every law that the envelope relies on, so those laws are consistent. */
module LawfulSuite {
  import opened Wrappers
  import opened Base64Url
  import opened Crypto

  /** Bytes behind which anything may follow: each is announced by a 1, and a 0 ends them. */
  function Delimited(bs: Bytes): Bytes {
    if bs == [] then [0] else [1, bs[0]] + Delimited(bs[1..])
  }

  lemma {:induction false} DelimitedApart(a: Bytes, b: Bytes, rest: Bytes)
    requires Delimited(a) <= Delimited(b) + rest
    ensures a == b
  {
    var all := Delimited(b) + rest;
    assert Delimited(a)[0] == all[0];
    if a != [] && b != [] {
      assert Delimited(a)[1] == all[1];
      assert all[2..] == Delimited(b[1..]) + rest && Delimited(a)[2..] == Delimited(a[1..]);
      DelimitedApart(a[1..], b[1..], rest);
      assert a == [a[0]] + a[1..] && b == [b[0]] + b[1..];
    }
  }

  function Spelled(m: string): Bytes {
    if m == "" then []
    else
      var n := m[0] as int;
      [n / 0x1_0000, n / 0x100 % 0x100, n % 0x100] + Spelled(m[1..])
  }

  function Read(bs: Bytes): Option<string> {
    if bs == [] then Some("")
    else if |bs| < 3 then None
    else
      var n := bs[0] as int * 0x1_0000 + bs[1] as int * 0x100 + bs[2] as int;
      match Read(bs[3..])
      case None => None
      case Some(m) => if n < 0xD800 || 0xE000 <= n < 0x11_0000 then Some([n as char] + m) else None
  }

  lemma {:induction false} ReadSpelled(m: string)
    ensures Read(Spelled(m)) == Some(m)
  {
    if m != "" {
      ReadSpelled(m[1..]);
      assert Spelled(m)[3..] == Spelled(m[1..]);
      assert m == [m[0]] + m[1..];
    }
  }

  function Header(k: Key, n: Nonce, a: Bytes): Bytes { k + n + Delimited(a) }

  function Seal(k: Key, n: Nonce, m: string, a: Bytes): Bytes { Header(k, n, a) + Spelled(m) }

  function OpenSealed(k: Key, n: Nonce, c: Bytes, a: Bytes): Option<string> {
    if Header(k, n, a) <= c then Read(c[|Header(k, n, a)|..]) else None
  }

  const TRANSPARENT :=
    Suite((a: Key) => a,
          (a: Key, b: Key) => seq(32, i requires 0 <= i < 32 => (a[i] as int + b[i] as int) % 256),
          (salt: string, key: Key, info: Bytes) => key,
          (k: Key, n: Nonce, m: string, a: Bytes) => Seal(k, n, m, a),
          (k: Key, n: Nonce, c: Bytes, a: Bytes) => OpenSealed(k, n, c, a))

  lemma OpensOwn(k: Key, n: Nonce, m: string, a: Bytes)
    ensures OpenSealed(k, n, Seal(k, n, m, a), a) == Some(m)
  {
    ReadSpelled(m);
    assert Seal(k, n, m, a)[|Header(k, n, a)|..] == Spelled(m);
  }

  lemma OpensOnlyOwn(k: Key, n: Nonce, m: string, a: Bytes, k': Key, n': Nonce, a': Bytes)
    requires OpenSealed(k', n', Seal(k, n, m, a), a').Some?
    ensures k' == k && n' == n && a' == a
  {
    var c := Seal(k, n, m, a);
    assert c[..32] == k && c[32..56] == n && c[56..] == Delimited(a) + Spelled(m);
    assert Header(k', n', a')[..32] == k' && Header(k', n', a')[32..56] == n' && Header(k', n', a')[56..] == Delimited(a');
    DelimitedApart(a', a, Spelled(m));
  }

  lemma TransparentLawful()
    ensures Lawful(TRANSPARENT)
  {
    var p := TRANSPARENT;
    hide Seal, OpenSealed;
    forall a: Key, b: Key ensures p.agree(a, p.publicKey(b)) == p.agree(b, p.publicKey(a)) {
    }
    forall k: Key, n: Nonce, m, a ensures p.open(k, n, p.seal(k, n, m, a), a) == Some(m) {
      OpensOwn(k, n, m, a);
    }
    forall k: Key, n: Nonce, m, a, k': Key, n': Nonce, a' | p.open(k', n', p.seal(k, n, m, a), a').Some?
      ensures k' == k && n' == n && a' == a
    {
      OpensOnlyOwn(k, n, m, a, k', n', a');
    }
    forall salt, k: Key, k': Key, info | p.hkdf(salt, k, info) == p.hkdf(salt, k', info) ensures k == k' {
    }
  }
}
