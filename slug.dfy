/** The filesystem-safe name derived from a topic. The workflow uses it for its two
    artifact names and the user interface for its session id; both write the same
    expression: keep letters, digits, '-' and '_', turn every other character into '_',
    and keep the first 50 characters. */
module Slug {

  const MaxLength: nat := 50

  /** `c.isalnum()`, restricted to ASCII letters and digits. */
  predicate IsAlnum(c: char) {
    'a' <= c <= 'z' || 'A' <= c <= 'Z' || '0' <= c <= '9'
  }

  /** The characters the slug keeps as they are. */
  predicate Allowed(c: char) {
    IsAlnum(c) || c == '-' || c == '_'
  }

  /** `c if c.isalnum() or c in ('-', '_') else '_'`. */
  function Clean(c: char): (r: char)
    ensures Allowed(r)
    ensures Allowed(c) ==> r == c
    ensures !Allowed(c) ==> r == '_'
  {
    if Allowed(c) then c else '_'
  }

  /** The generator joined: every character of `s` cleaned, in place. */
  function Sanitize(s: string): (r: string)
    ensures |r| == |s|
    ensures forall i :: 0 <= i < |s| ==> r[i] == Clean(s[i])
    decreases |s|
  {
    if s == [] then [] else [Clean(s[0])] + Sanitize(s[1..])
  }

  function Min(a: nat, b: nat): nat {
    if a <= b then a else b
  }

  /** `"".join(...)[:50]`. */
  function SafeName(topic: string): (r: string)
    ensures |r| == Min(|topic|, MaxLength)
    ensures forall i :: 0 <= i < |r| ==> Allowed(r[i])
    ensures forall i :: 0 <= i < |r| ==> r[i] == (if Allowed(topic[i]) then topic[i] else '_')
  {
    var full := Sanitize(topic);
    if |full| <= MaxLength then full else full[..MaxLength]
  }

  /** Slugging is idempotent: a slug is its own slug. */
  lemma SafeNameIdempotent(topic: string)
    ensures SafeName(SafeName(topic)) == SafeName(topic)
  {
    var s := SafeName(topic);
    var t := SafeName(s);
    assert |t| == |s|;
    forall i | 0 <= i < |s| ensures t[i] == s[i] {
      assert Allowed(s[i]);
    }
  }

  /** A topic already made of allowed characters and short enough is kept unchanged. */
  lemma SafeNameKeepsSafeTopic(topic: string)
    requires |topic| <= MaxLength
    requires forall i :: 0 <= i < |topic| ==> Allowed(topic[i])
    ensures SafeName(topic) == topic
  {
  }
}
