/** Worker names, worker ports and the proxy's endpoints. */
module Naming {
  import opened Pool

  const DIGITS := "0123456789"

  /** The number of values of the ports' type, uint64. */
  const PORT_MODULUS := 0x1_0000_0000_0000_0000

  /** A replica count is a Go int. */
  const MAX_INT := 0x7FFF_FFFF_FFFF_FFFF

  /** Decimal rendering, as `%d` does it. */
  function Decimal(n: nat): (s: string)
    ensures |s| > 0 && s[|s| - 1] == DIGITS[n % 10]
    ensures |s| == 1 <==> n < 10
  {
    if n < 10 then [DIGITS[n]] else Decimal(n / 10) + [DIGITS[n % 10]]
  }

  /** `fmt.Sprintf("%s-%d", poolName, i)` */
  function WorkerName(pool: string, i: nat): string {
    pool + "-" + Decimal(i)
  }

  function PortOf(startPort: nat, i: nat): nat {
    (startPort + i) % PORT_MODULUS
  }

  lemma {:induction false} DecimalInjective(m: nat, n: nat)
    requires Decimal(m) == Decimal(n)
    ensures m == n
    decreases m
  {
    var s := Decimal(m);
    assert DIGITS[m % 10] == DIGITS[n % 10];
    assert forall i, j | 0 <= i < j < 10 :: DIGITS[i] != DIGITS[j];
    if m >= 10 {
      assert s[..|s| - 1] == Decimal(m / 10) == Decimal(n / 10);
      DecimalInjective(m / 10, n / 10);
    }
  }

  /** The number a string of decimal digits stands for. */
  function Value(s: string): int {
    if s == [] then 0 else 10 * Value(s[..|s| - 1]) + (s[|s| - 1] as int - '0' as int)
  }

  /** A rendered number is read back as that number, and has no leading zero. */
  lemma {:induction false} DecimalReads(n: nat)
    ensures Value(Decimal(n)) == n
    ensures forall i | 0 <= i < |Decimal(n)| :: '0' <= Decimal(n)[i] <= '9'
    ensures Decimal(n)[0] == '0' ==> n == 0
  {
    DigitReads(n % 10);
    if n >= 10 {
      DecimalReads(n / 10);
      assert Decimal(n)[..|Decimal(n)| - 1] == Decimal(n / 10);
    } else {
      assert Decimal(n)[..0] == [];
    }
  }

  lemma DigitReads(d: nat)
    requires d < 10
    ensures DIGITS[d] as int == '0' as int + d && '0' <= DIGITS[d] <= '9'
    ensures |DIGITS| == 10
  {
  }

  /** A worker's name is its pool's, a dash, and its number in decimal. */
  lemma WorkerNameReads(pool: string, i: nat)
    ensures var name := WorkerName(pool, i);
            && |name| >= |pool| + 2 && name[..|pool|] == pool && name[|pool|] == '-'
            && (forall j | |pool| < j < |name| :: '0' <= name[j] <= '9')
            && Value(name[|pool| + 1..]) == i && (name[|pool| + 1] == '0' ==> i == 0)
  {
    DecimalReads(i);
    assert WorkerName(pool, i)[|pool| + 1..] == Decimal(i);
  }

  /** Ports are handed out one after the other from the start port on, and wrap around after the last. */
  lemma PortsCountUp(startPort: nat, i: nat)
    requires startPort < PORT_MODULUS
    ensures PortOf(startPort, 0) == startPort
    ensures PortOf(startPort, i + 1) == if PortOf(startPort, i) == 0xFFFF_FFFF_FFFF_FFFF then 0 else PortOf(startPort, i) + 1
  {
  }

  /** Worker names of one pool are distinct, whatever the pool is called. */
  lemma WorkerNamesDistinct(pool: string, i: nat, j: nat)
    requires WorkerName(pool, i) == WorkerName(pool, j)
    ensures i == j
  {
    var n := |pool| + 1;
    assert WorkerName(pool, i)[n..] == Decimal(i);
    assert WorkerName(pool, j)[n..] == Decimal(j);
    DecimalInjective(i, j);
  }

  /** No worker is called like the proxy: a worker's name ends in a digit. */
  lemma WorkerIsNotProxy(pool: string, i: nat)
    ensures WorkerName(pool, i) != PROXY_ID
  {
    var s := WorkerName(pool, i);
    assert s[|s| - 1] == DIGITS[i % 10];
    assert forall d | 0 <= d < 10 :: DIGITS[d] != 'y';
    assert PROXY_ID[|PROXY_ID| - 1] == 'y';
  }

  /** Ports of one pool are distinct, even where they wrap around. */
  lemma PortsDistinct(startPort: nat, i: nat, j: nat)
    requires startPort < PORT_MODULUS && i <= MAX_INT && j <= MAX_INT
    requires PortOf(startPort, i) == PortOf(startPort, j)
    ensures i == j
  {
  }

  /** The names of the first `n` workers. */
  function Names(pool: string, n: nat): set<string> {
    set i | 0 <= i < n :: WorkerName(pool, i)
  }

  lemma {:induction false} NamesNext(pool: string, n: nat)
    ensures Names(pool, n + 1) == Names(pool, n) + {WorkerName(pool, n)}
    ensures WorkerName(pool, n) !in Names(pool, n)
    ensures PROXY_ID !in Names(pool, n)
  {
    forall i | 0 <= i < n ensures WorkerName(pool, i) != WorkerName(pool, n) {
      if WorkerName(pool, i) == WorkerName(pool, n) {
        WorkerNamesDistinct(pool, i, n);
      }
    }
    forall i | 0 <= i < n ensures WorkerName(pool, i) != PROXY_ID {
      WorkerIsNotProxy(pool, i);
    }
  }

  /** A pool of `n` workers has exactly `n` names. */
  lemma {:induction false} NamesCount(pool: string, n: nat)
    ensures |Names(pool, n)| == n
  {
    if n > 0 {
      NamesCount(pool, n - 1);
      NamesNext(pool, n - 1);
    }
  }
}
