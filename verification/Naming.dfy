/** Channel names, socket paths and their decimal formatting (Daemon.cpp, UnixSocket.cpp). */
module Naming {

  /** `pid_t` on Linux: a 32-bit signed integer. */
  type Pid = p: int | -0x8000_0000 <= p < 0x8000_0000

  const DIGITS := "0123456789"

  /** Decimal digits of a natural number, most significant first, as `std::format` prints them. */
  function Digits(n: nat): string
  {
    if n < 10 then [DIGITS[n]] else Digits(n / 10) + [DIGITS[n % 10]]
  }

  function Magnitude(n: int): nat
  {
    if n < 0 then -n else n
  }

  /** `std::format("{}", n)` for a signed integer. */
  function Decimal(n: int): string
  {
    if n < 0 then "-" + Digits(Magnitude(n)) else Digits(n)
  }

  /** `Daemon::generate_client_channel_name`. */
  function ChannelName(pid: Pid): string
  {
    "HyCAN_Client_" + Decimal(pid)
  }

  /** The path a `UnixSocket` is constructed with: the prefix is added in its constructor. */
  function SocketPath(name: string): string
  {
    "/run/hycan_" + name
  }

  const DAEMON_NAME := "daemon"

  /** `sizeof(sockaddr_un::sun_path)` on Linux. */
  const SUN_PATH_SIZE := 108

  /** The length test of `UnixSocket::setup_address`. */
  predicate AddressFits(path: string)
  {
    |path| < SUN_PATH_SIZE
  }

  /** The value of a digit character; characters that are not digits count as zero. */
  function DigitValue(c: char): nat
  {
    if '0' <= c <= '9' then (c - '0') as int else 0
  }

  /** Reads a digit string back as a number. */
  function ParseDigits(s: string): nat
  {
    if s == "" then 0 else 10 * ParseDigits(s[..|s| - 1]) + DigitValue(s[|s| - 1])
  }

  /** Reads back what `Decimal` printed. */
  function ParseDecimal(s: string): int
  {
    if s != "" && s[0] == '-' then 0 - ParseDigits(s[1..]) else ParseDigits(s)
  }

  /** Formatting then parsing a natural number is the identity; the text never begins with a sign. */
  lemma {:induction false} DigitsRoundTrip(n: nat)
    ensures ParseDigits(Digits(n)) == n
    ensures Digits(n) != "" && Digits(n)[0] != '-'
  {
    if n < 10 {
      assert Digits(n)[..0] == "";
    } else {
      DigitsRoundTrip(n / 10);
      var s := Digits(n);
      assert s[..|s| - 1] == Digits(n / 10);
    }
  }

  /** Formatting then parsing a signed number is the identity, so the format is injective. */
  lemma DecimalRoundTrip(n: int)
    ensures ParseDecimal(Decimal(n)) == n
  {
    if n < 0 {
      DigitsRoundTrip(-n);
      assert Decimal(n)[1..] == Digits(-n);
    } else {
      DigitsRoundTrip(n);
    }
  }

  function PowerOfTen(k: nat): nat
  {
    if k == 0 then 1 else 10 * PowerOfTen(k - 1)
  }

  /** A number below 10^k is printed with at most k digits. */
  lemma {:induction false} DigitsLength(n: nat, k: nat)
    requires k >= 1 && n < PowerOfTen(k)
    ensures 1 <= |Digits(n)| <= k
  {
    if n >= 10 {
      assert PowerOfTen(1) == 10;
      DigitsLength(n / 10, k - 1);
    }
  }

  /** Every 32-bit pid gives a channel name of at most 24 characters. */
  lemma ChannelNameLength(pid: Pid)
    ensures 14 <= |ChannelName(pid)| <= 24
  {
    assert PowerOfTen(10) == 10_000_000_000 by {
      assert PowerOfTen(5) == 100000;
      assert PowerOfTen(10) == 100000 * PowerOfTen(5);
    }
    DigitsLength(Magnitude(pid), 10);
  }

  /** A channel name is its prefix and the pid's decimal digits, which read back as the pid. */
  lemma ChannelNameReadsBack(pid: Pid)
    ensures ChannelName(pid)[..13] == "HyCAN_Client_"
    ensures ParseDecimal(ChannelName(pid)[13..]) == pid
    ensures forall k :: 13 <= k < |ChannelName(pid)| ==>
      '0' <= ChannelName(pid)[k] <= '9' || (k == 13 && pid < 0 && ChannelName(pid)[k] == '-')
  {
    assert ChannelName(pid)[13..] == Decimal(pid);
    DecimalRoundTrip(pid);
    DigitsAreDigits(Magnitude(pid));
  }

  lemma {:induction false} DigitsAreDigits(n: nat)
    ensures forall k :: 0 <= k < |Digits(n)| ==> '0' <= Digits(n)[k] <= '9'
  {
    assert forall d :: 0 <= d < 10 ==> '0' <= DIGITS[d] <= '9';
    if n >= 10 {
      DigitsAreDigits(n / 10);
    }
  }

  /** Every path is the directory, the program's prefix and a name. */
  lemma PathTextSpec(pid: Pid)
    ensures PathText(Channel(pid)) == "/run/hycan_HyCAN_Client_" + Decimal(pid)
    ensures PathText(MainPath) == "/run/hycan_daemon"
  {
    assert "/run/hycan_" + ("HyCAN_Client_" + Decimal(pid)) == "/run/hycan_HyCAN_Client_" + Decimal(pid);
  }

  /** Channel names contain no NUL, so they survive a C-string copy. */
  lemma ChannelNameHasNoNul(pid: Pid)
    ensures '\0' !in ChannelName(pid)
  {
    DigitsHaveNoNul(Magnitude(pid));
    assert '\0' !in "HyCAN_Client_";
  }

  lemma {:induction false} DigitsHaveNoNul(n: nat)
    ensures '\0' !in Digits(n)
  {
    if n >= 10 {
      DigitsHaveNoNul(n / 10);
    }
  }

  /** Two pids share a channel name only when they are equal, and no pid is given the daemon's own name. */
  lemma ChannelNamesDistinct(p: Pid, q: Pid)
    ensures ChannelName(p) == ChannelName(q) <==> p == q
    ensures ChannelName(p) != DAEMON_NAME
  {
    var prefix := "HyCAN_Client_";
    assert ChannelName(p)[|prefix|..] == Decimal(p);
    assert ChannelName(q)[|prefix|..] == Decimal(q);
    DecimalRoundTrip(p);
    DecimalRoundTrip(q);
    assert ChannelName(p)[0] == 'H' && DAEMON_NAME[0] == 'd';
  }

  /** A file of the `/run` namespace that the daemon binds. */
  datatype Path = MainPath | Channel(pid: Pid)

  function PathText(p: Path): string
  {
    match p
    case MainPath => SocketPath(DAEMON_NAME)
    case Channel(pid) => SocketPath(ChannelName(pid))
  }

  /** `Path` values stand for pairwise different files, all short enough to be bound. */
  lemma PathTextInjective(p: Path, q: Path)
    ensures PathText(p) == PathText(q) <==> p == q
    ensures AddressFits(PathText(p)) && |PathText(p)| < 108
  {
    var prefix := "/run/hycan_";
    assert forall n: string {:trigger SocketPath(n)} :: SocketPath(n)[|prefix|..] == n;
    match (p, q) {
      case (MainPath, MainPath) =>
      case (MainPath, Channel(b)) => ChannelNamesDistinct(b, b);
      case (Channel(a), MainPath) => ChannelNamesDistinct(a, a); ChannelNameLength(a);
      case (Channel(a), Channel(b)) => ChannelNamesDistinct(a, b); ChannelNameLength(a);
    }
  }
}
