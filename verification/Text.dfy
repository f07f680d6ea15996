/** Strings in order, and numbers written in a fixed width. */
module Text {
  /** Strings in the order of their code points. */
  predicate Before(a: string, b: string) {
    b != [] && (a == [] || a[0] < b[0] || (a[0] == b[0] && Before(a[1..], b[1..])))
  }

  lemma {:induction false} BeforeIsOrder(a: string, b: string, c: string)
    ensures !Before(a, a)
    ensures a != b ==> Before(a, b) || Before(b, a)
    ensures Before(a, b) && Before(b, c) ==> Before(a, c)
  {
    if a != [] {
      BeforeIsOrder(a[1..], if b == [] then [] else b[1..], if c == [] then [] else c[1..]);
      if b != [] && a[0] == b[0] && a[1..] == b[1..] {
        assert a == [a[0]] + a[1..] && b == [b[0]] + b[1..];
      }
    }
  }

  /** Where the heads are equally long they decide, and the tails only between equal heads. */
  lemma {:induction false} BeforeByParts(p: string, q: string, r: string, s: string)
    requires |p| == |q|
    ensures Before(p + r, q + s) <==> Before(p, q) || (p == q && Before(r, s))
  {
    if p == [] {
      assert p + r == r && q + s == s;
    } else {
      BeforeByParts(p[1..], q[1..], r, s);
      assert (p + r)[1..] == p[1..] + r && (q + s)[1..] == q[1..] + s;
      assert p == [p[0]] + p[1..] && q == [q[0]] + q[1..];
    }
  }

  function Pow10(n: nat): nat {
    if n == 0 then 1 else 10 * Pow10(n - 1)
  }

  /** `n` in decimal, in exactly `width` digits. */
  function Digits(n: nat, width: nat): (r: string)
    ensures |r| == width
  {
    if width == 0 then [] else Digits(n / 10, width - 1) + [('0' as int + n % 10) as char]
  }

  /** In a fixed width, the order of the strings is that of the numbers. */
  lemma {:induction false} DigitsInOrder(a: nat, b: nat, width: nat)
    requires a < Pow10(width) && b < Pow10(width)
    ensures Before(Digits(a, width), Digits(b, width)) <==> a < b
    ensures Digits(a, width) == Digits(b, width) <==> a == b
  {
    if width > 0 {
      DigitsInOrder(a / 10, b / 10, width - 1);
      var c, d := ('0' as int + a % 10) as char, ('0' as int + b % 10) as char;
      var p, q := Digits(a / 10, width - 1), Digits(b / 10, width - 1);
      BeforeByParts(p, q, [c], [d]);
      assert Before([c], [d]) <==> c < d;
      assert Digits(a, width)[..width - 1] == p && Digits(b, width)[..width - 1] == q;
      assert Digits(a, width)[width - 1] == c && Digits(b, width)[width - 1] == d;
    }
  }
}
