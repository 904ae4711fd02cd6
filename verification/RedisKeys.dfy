/** The keys of the task queue as the strings Redis sees, and decimal printing. */
module RedisKeys {

  predicate IsDigit(c: char) {
    '0' <= c <= '9'
  }

  function Digit(n: nat): char
    requires n < 10
  {
    '0' + n as char
  }

  /** Decimal, as `%d` prints it. */
  function Itoa(n: nat): (s: string)
    ensures s != "" && forall c | c in s :: IsDigit(c)
  {
    if n < 10 then [Digit(n)] else Itoa(n / 10) + [Digit(n % 10)]
  }

  function Atoi(s: string): nat
    requires forall c | c in s :: IsDigit(c)
  {
    if s == "" then 0
    else
      var c := s[|s| - 1];
      assert IsDigit(c);
      10 * Atoi(s[..|s| - 1]) + (c as int - '0' as int)
  }

  lemma {:induction false} AtoiOfItoa(n: nat)
    ensures Atoi(Itoa(n)) == n
  {
    var s := Itoa(n);
    if n < 10 {
      assert s[..0] == "";
    } else {
      AtoiOfItoa(n / 10);
      assert s[..|s| - 1] == Itoa(n / 10);
    }
  }

  lemma ItoaInjective(m: nat, n: nat)
    requires Itoa(m) == Itoa(n)
    ensures m == n
  {
    AtoiOfItoa(m);
    AtoiOfItoa(n);
  }

  // -------------------------------------------------------------------- keys

  function TaskKey(engine: nat): string {
    "queue:task:" + Itoa(engine)
  }

  function CounterKey(engine: nat): string {
    "queue:task:" + Itoa(engine) + ":counter"
  }

  /** `job` is the job's id as text, as both sides of the queue print it. */
  function ResultKey(engine: nat, job: string): string {
    "queue:processed:" + Itoa(engine) + ":" + job
  }

  /** The part of a text before its first colon. */
  function BeforeColon(s: string): string {
    if s == "" || s[0] == ':' then "" else [s[0]] + BeforeColon(s[1..])
  }

  lemma {:induction false} BeforeColonOf(a: string, rest: string)
    requires ':' !in a && (rest == "" || rest[0] == ':')
    ensures BeforeColon(a + rest) == a
  {
    if a == "" {
      assert a + rest == rest;
    } else {
      assert a[0] in a && (a + rest)[1..] == a[1..] + rest;
      BeforeColonOf(a[1..], rest);
    }
  }

  lemma Drop(prefix: string, s: string)
    ensures (prefix + s)[|prefix|..] == s
  {
  }

  /** Two texts that print an engine number up to the first colon or the end are equal
      only if number and remainder are. */
  lemma NumberThenRest(m: nat, n: nat, a: string, b: string)
    requires (a == "" || a[0] == ':') && (b == "" || b[0] == ':')
    requires Itoa(m) + a == Itoa(n) + b
    ensures m == n && a == b
  {
    assert !IsDigit(':');
    BeforeColonOf(Itoa(m), a);
    BeforeColonOf(Itoa(n), b);
    ItoaInjective(m, n);
    Drop(Itoa(m), a);
    Drop(Itoa(n), b);
  }

  lemma TaskKeys(m: nat, n: nat)
    ensures TaskKey(m) == TaskKey(n) <==> m == n
    ensures CounterKey(m) == CounterKey(n) <==> m == n
    ensures TaskKey(m) != CounterKey(n)
  {
    var p := "queue:task:";
    Drop(p, Itoa(m));
    Drop(p, Itoa(n));
    Drop(p, Itoa(m) + ":counter");
    Drop(p, Itoa(n) + ":counter");
    assert CounterKey(m) == p + (Itoa(m) + ":counter") && CounterKey(n) == p + (Itoa(n) + ":counter");
    assert Itoa(m) + "" == Itoa(m) && Itoa(n) + "" == Itoa(n);
    if TaskKey(m) == TaskKey(n) { NumberThenRest(m, n, "", ""); }
    if CounterKey(m) == CounterKey(n) { NumberThenRest(m, n, ":counter", ":counter"); }
    if TaskKey(m) == CounterKey(n) { NumberThenRest(m, n, "", ":counter"); }
  }

  lemma ResultKeys(m: nat, n: nat, j: string, k: string)
    ensures ResultKey(m, j) == ResultKey(n, k) <==> m == n && j == k
    ensures ResultKey(m, j) != TaskKey(n) && ResultKey(m, j) != CounterKey(n)
  {
    var p := "queue:processed:";
    assert ResultKey(m, j) == p + (Itoa(m) + (":" + j)) && ResultKey(n, k) == p + (Itoa(n) + (":" + k));
    assert ResultKey(m, j)[6] == 'p' && TaskKey(n)[6] == 't' && CounterKey(n)[6] == 't';
    if ResultKey(m, j) == ResultKey(n, k) {
      Drop(p, Itoa(m) + (":" + j));
      Drop(p, Itoa(n) + (":" + k));
      NumberThenRest(m, n, ":" + j, ":" + k);
      Drop(":", j);
      Drop(":", k);
    }
  }

  /** The printed keys are injective in the engine and the job, and the three families
      never meet: no two jobs share a result list, and no list is anyone's counter. */
  lemma KeysDoNotCollide(m: nat, n: nat, i: nat, j: nat)
    ensures TaskKey(m) == TaskKey(n) <==> m == n
    ensures CounterKey(m) == CounterKey(n) <==> m == n
    ensures ResultKey(m, Itoa(i)) == ResultKey(n, Itoa(j)) <==> m == n && i == j
    ensures TaskKey(m) != CounterKey(n) && ResultKey(m, Itoa(i)) != TaskKey(n) && ResultKey(m, Itoa(i)) != CounterKey(n)
  {
    TaskKeys(m, n);
    ResultKeys(m, n, Itoa(i), Itoa(j));
    if Itoa(i) == Itoa(j) { ItoaInjective(i, j); }
  }

  /** The keys as they read in Redis. */
  lemma KeysInRedis()
    ensures TaskKey(1) == "queue:task:1" && CounterKey(0) == "queue:task:0:counter"
    ensures ResultKey(1, Itoa(205)) == "queue:processed:1:205"
  {
    assert Itoa(0) == "0" && Itoa(1) == "1";
    assert Itoa(2) == "2" && Itoa(20) == "20" && Itoa(205) == "205";
  }
}
