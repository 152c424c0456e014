/**
 * Regrouping of concatenations, which the verifier does not do on its own;
 * the proofs about the generated and rewritten text use these to bring a
 * long concatenation into the grouping a slice or a search needs.
 */
module Seqs {

  lemma AppendAssoc<T>(a: seq<T>, b: seq<T>, c: seq<T>)
    ensures a + b + c == a + (b + c)
  {
  }

  /** `b` is the slice of `a + b + c` that starts after `a`. */
  lemma Middle(a: string, b: string, c: string)
    ensures (a + b + c)[|a|..|a| + |b|] == b
  {
  }

  /** `a` is the prefix of `a + b` of its own length. */
  lemma Prefix(a: string, b: string)
    ensures (a + b)[0..|a|] == a
  {
  }

  lemma Regroup4(x: string, a: string, b: string, c: string)
    ensures x + a + b + c == x + (a + b + c)
  {
    AppendAssoc(x, a, b);
    AppendAssoc(x, a + b, c);
  }

  lemma Regroup6(x: string, a: string, b: string, c: string, d: string, e: string)
    ensures x + a + b + c + d + e == x + (a + b + c + d + e)
  {
    Regroup4(x, a, b, c);
    AppendAssoc(x, a + b + c, d);
    AppendAssoc(x, a + b + c + d, e);
  }

  lemma Regroup8(x: string, a: string, b: string, c: string, d: string, e: string, f: string, g: string)
    ensures x + a + b + c + d + e + f + g == x + (a + b + c + d + e + f + g)
  {
    Regroup6(x, a, b, c, d, e);
    AppendAssoc(x, a + b + c + d + e, f);
    AppendAssoc(x, a + b + c + d + e + f, g);
  }

  lemma Regroup10(x: string, a: string, b: string, c: string, d: string, e: string, f: string, g: string,
                  h: string, i: string)
    ensures x + a + b + c + d + e + f + g + h + i == x + (a + b + c + d + e + f + g + h + i)
  {
    Regroup8(x, a, b, c, d, e, f, g);
    AppendAssoc(x, a + b + c + d + e + f + g, h);
    AppendAssoc(x, a + b + c + d + e + f + g + h, i);
  }
}
