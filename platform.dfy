/** The Java library behaviour the server leans on but that the model does
    not re-implement: rendering and reading floating-point numbers, the
    iteration order of a `HashMap`'s keys, and BCrypt. The model takes one
    value of this type and states, in `Lawful`, the few facts it relies on. */
module Platform {
  import opened Results
  import opened JavaText

  datatype Platform = Platform(
    /** `Double.toString`, also what string concatenation writes for a double. */
    show: real -> string,
    /** `Double.parseDouble`; `None` where it throws `NumberFormatException`. */
    parse: string -> Option<real>,
    /** `"%.2f"`. */
    cents: real -> string,
    /** `"%+.2f"`. */
    signedCents: real -> string,
    /** `"%013.8f"`. */
    quantity: real -> string,
    /** `"%f"`. */
    plain: real -> string,
    /** The order in which a `HashMap` with these keys hands them out. */
    keyOrder: set<string> -> seq<string>,
    /** `BCrypt.hashpw(password, salt)`. */
    hash: (string, string) -> string,
    /** `BCrypt.checkpw(password, hashed)`. */
    check: (string, string) -> bool)

  /** A rendered double: never empty and free of the record delimiters. */
  predicate Numeral(t: string) {
    t != [] && ';' !in t && ',' !in t && '=' !in t
  }

  /** `ks` lists the set `s`, each element once. */
  predicate Enumerates(ks: seq<string>, s: set<string>) {
    && (forall i :: 0 <= i < |ks| ==> ks[i] in s)
    && (forall k :: k in s ==> k in ks)
    && (forall i, j :: 0 <= i < j < |ks| ==> ks[i] != ks[j])
  }

  /** What the model relies on of every platform: a rendered number is a
      numeral, zero is written and read as "0.0", a key order lists each key
      once, and a password checks against its own hash. */
  ghost predicate Lawful(p: Platform) {
    && (forall x :: Numeral(p.show(x)))
    && p.show(0.0) == "0.0"
    && p.parse("0.0") == Some(0.0)
    && (forall s :: Enumerates(p.keyOrder(s), s))
    && (forall pw, salt :: p.check(pw, p.hash(pw, salt)))
  }

  /** `x` reads back from its own rendering. In Java every double does; a
      real that is no double has no rendering that reads back as it. */
  ghost predicate Exact(p: Platform, x: real) {
    p.parse(p.show(x)) == Some(x)
  }

  /** Every value of `m` reads back from its rendering. */
  ghost predicate ExactValues(p: Platform, m: map<string, real>) {
    forall k :: k in m ==> Exact(p, m[k])
  }

  lemma ShowIsNumeral(p: Platform, x: real)
    requires Lawful(p)
    ensures Numeral(p.show(x))
  {
  }

  /** The keys of `s` in some order. */
  ghost function ListOf(s: set<string>): (ks: seq<string>)
    ensures Enumerates(ks, s)
    decreases |s|
  {
    if s == {} then []
    else
      var k :| k in s;
      var rest := ListOf(s - {k});
      assert forall j :: j in s ==> j == k || j in s - {k};
      [k] + rest
  }

  /** A platform that renders 0 as "0.0" and every other number as "1",
      reads back exactly those two, and hashes a password to itself. */
  ghost function SamplePlatform(): Platform {
    Platform(
      x => if x == 0.0 then "0.0" else "1",
      t => if t == "0.0" then Some(0.0) else if t == "1" then Some(1.0) else None,
      x => "0.00", x => "+0.00", x => "0000.00000000", x => "0.000000",
      s => ListOf(s),
      (pw, salt) => pw,
      (pw, hashed) => pw == hashed)
  }

  /** The laws can be met, and the lemmas that need a number to read back
      exactly apply to 0 and 1 on such a platform. */
  lemma SampleIsLawful()
    ensures Lawful(SamplePlatform())
    ensures Exact(SamplePlatform(), 0.0) && Exact(SamplePlatform(), 1.0)
    ensures !Exact(SamplePlatform(), 2.0)
  {
    var p := SamplePlatform();
    assert "0.0" != "1";
    forall s ensures Enumerates(p.keyOrder(s), s) {
      assert p.keyOrder(s) == ListOf(s);
    }
  }

  lemma TailEnumerates(ks: seq<string>, s: set<string>)
    requires Enumerates(ks, s) && ks != []
    ensures Enumerates(ks[1..], s - {ks[0]})
  {
    var rest := ks[1..];
    forall k | k in s - {ks[0]} ensures k in rest {
      var i :| 0 <= i < |ks| && ks[i] == k;
      assert rest[i - 1] == k;
    }
  }

  lemma {:induction false} EnumeratesLength(ks: seq<string>, s: set<string>)
    requires Enumerates(ks, s)
    ensures |ks| == |s|
  {
    if ks != [] {
      TailEnumerates(ks, s);
      EnumeratesLength(ks[1..], s - {ks[0]});
    } else {
      assert s == {};
    }
  }

  lemma EnumeratesSingleton(ks: seq<string>, k: string)
    requires Enumerates(ks, {k})
    ensures ks == [k]
  {
    EnumeratesLength(ks, {k});
  }
}
