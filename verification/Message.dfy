/** The fixed-size messages and their truncating name fields (Message.hpp, Socket.cpp:31-35). */
module Message {
  import opened Base
  import opened Naming

  /** IFNAMSIZ */
  const IF_NAME_SIZE := 16

  /** `sizeof ClientRegisterResponse::client_channel_name` */
  const CHANNEL_FIELD_SIZE := 64

  /** A C string: the characters before the first NUL. */
  function CString(s: seq<char>): string
  {
    if s == [] || s[0] == '\0' then [] else [s[0]] + CString(s[1..])
  }

  function Take(s: string, n: nat): string
  {
    if |s| <= n then s else s[..n]
  }

  function Zeros(n: nat): seq<char>
  {
    seq(n, _ => '\0')
  }

  /** What a zeroed field of a given size holds after a truncating copy of the C string src. */
  function Field(src: string, size: nat): seq<char>
    requires size > 0
  {
    var t := Take(CString(src), size - 1);
    t + Zeros(size - |t|)
  }

  /** What `ensure_connected` leaves in a zeroed `ifr_name`: a memcpy that does not stop at a NUL. */
  function IfrField(name: string): seq<char>
  {
    var t := Take(name, IF_NAME_SIZE - 1);
    t + Zeros(IF_NAME_SIZE - |t|)
  }

  predicate NulFree(s: string)
  {
    '\0' !in s
  }

  lemma {:induction false} CStringPrefix(s: seq<char>, k: nat)
    requires k <= |s| && NulFree(s[..k]) && (k == |s| || s[k] == '\0')
    ensures CString(s) == s[..k]
  {
    if k > 0 {
      assert s[0] == s[..k][0];
      assert s[1..][..k - 1] == s[..k][1..];
      CStringPrefix(s[1..], k - 1);
      assert s[..k] == [s[0]] + s[1..][..k - 1];
    }
  }

  /** A C string has no NUL, ends at one or at the end, and is a prefix. */
  lemma {:induction false} CStringSpec(s: seq<char>)
    ensures CString(s) <= s && NulFree(CString(s))
    ensures |CString(s)| < |s| ==> s[|CString(s)|] == '\0'
  {
    if s != [] && s[0] != '\0' {
      CStringSpec(s[1..]);
    }
  }

  lemma {:induction false} CStringAtLeast(s: seq<char>, k: nat)
    requires k <= |s| && NulFree(s[..k])
    ensures |CString(s)| >= k && CString(s)[..k] == s[..k]
  {
    if k > 0 {
      assert s[0] == s[..k][0];
      assert s[1..][..k - 1] == s[..k][1..];
      CStringAtLeast(s[1..], k - 1);
      assert s[..k] == [s[0]] + s[1..][..k - 1];
      assert CString(s)[..k] == [s[0]] + CString(s[1..])[..k - 1];
    }
  }

  /** Reading a field back as a C string gives the truncated name. */
  lemma FieldReadsBack(src: string, size: nat)
    requires size > 0
    ensures CString(Field(src, size)) == Take(CString(src), size - 1)
  {
    CStringSpec(src);
    var t := Take(CString(src), size - 1);
    assert Field(src, size)[..|t|] == t;
    CStringPrefix(Field(src, size), |t|);
  }

  /** So does reading `ifr_name` back: both copies name the same link, whatever the caller's string. */
  lemma IfrReadsBack(name: string)
    ensures CString(IfrField(name)) == Take(CString(name), IF_NAME_SIZE - 1)
  {
    CStringSpec(name);
    var t := Take(name, IF_NAME_SIZE - 1);
    var c := Take(CString(name), IF_NAME_SIZE - 1);
    assert c <= t;
    assert IfrField(name)[..|c|] == c;
    CStringPrefix(IfrField(name), |c|);
  }

  predicate StartsWithCan(name: string)
  {
    |name| >= 3 && name[..3] == "can"
  }

  lemma CanByCharacters(n: string)
    ensures StartsWithCan(n) <==> |n| >= 3 && n[0] == 'c' && n[1] == 'a' && n[2] == 'n'
  {
    if |n| >= 3 {
      assert n[..3] == [n[0], n[1], n[2]];
    }
  }

  /** The name the kernel sees for a caller's interface name. */
  function LinkName(name: string): string
  {
    Take(CString(name), IF_NAME_SIZE - 1)
  }

  /** It is what comes before the first NUL, but at most 15 characters of that. */
  lemma LinkNameSpec(name: string)
    ensures LinkName(name) <= name && '\0' !in LinkName(name) && |LinkName(name)| <= 15
    ensures |LinkName(name)| == 15 || |LinkName(name)| == |name| || name[|LinkName(name)|] == '\0'
    ensures '\0' !in name ==> LinkName(name) == (if |name| <= 15 then name else name[..15])
  {
    CStringSpec(name);
    if '\0' !in name {
      assert name[..|name|] == name;
      CStringPrefix(name, |name|);
    }
  }

  lemma PrefixAgrees(name: string)
    ensures StartsWithCan(LinkName(name)) <==> StartsWithCan(name)
  {
    CStringSpec(name);
    assert |LinkName(name)| >= 3 ==> LinkName(name)[..3] == name[..3];
    if StartsWithCan(name) {
      assert NulFree(name[..3]);
      CStringAtLeast(name, 3);
    }
  }

  /**
    For every name of any length, the name in the daemon's request and the name the client's own socket binds to are the
    same, and the `can` prefix is tested alike on the caller's string and on the request's field.
   */
  lemma NamesAgree(name: string)
    ensures CString(Field(name, IF_NAME_SIZE)) == CString(IfrField(name)) == LinkName(name)
    ensures StartsWithCan(CString(Field(name, IF_NAME_SIZE))) <==> StartsWithCan(name)
    ensures NulFree(name) ==> LinkName(name) == Take(name, IF_NAME_SIZE - 1)
  {
    FieldReadsBack(name, IF_NAME_SIZE);
    IfrReadsBack(name);
    CStringSpec(name);
    if NulFree(name) {
      CStringPrefix(name, |name|);
      assert name[..|name|] == name;
    }
    PrefixAgrees(name);
  }

  /** A channel name passes through the 64-byte response field unchanged. */
  lemma ChannelNameSurvives(pid: Pid)
    ensures CString(Field(ChannelName(pid), CHANNEL_FIELD_SIZE)) == ChannelName(pid)
  {
    ChannelNameLength(pid);
    ChannelNameHasNoNul(pid);
    FieldReadsBack(ChannelName(pid), CHANNEL_FIELD_SIZE);
    CStringPrefix(ChannelName(pid), |ChannelName(pid)|);
    assert ChannelName(pid)[..|ChannelName(pid)|] == ChannelName(pid);
  }

  // ---------------------------------------------------------------- the constructors

  /** `strncpy(dst, src, n)` for a C string src. */
  method StrNCpy(dst: array<char>, src: string, n: nat)
    requires n <= dst.Length
    modifies dst
    ensures dst[..n] == Take(CString(src), n) + Zeros(n - |Take(CString(src), n)|)
    ensures dst[n..] == old(dst[n..])
  {
    CStringSpec(src);
    var i := 0;
    while i < n && i < |src| && src[i] != '\0'
      invariant 0 <= i <= n && i <= |src|
      invariant dst[..i] == src[..i] && NulFree(src[..i])
      invariant dst[n..] == old(dst[n..])
    {
      dst[i] := src[i];
      i := i + 1;
    }
    ghost var k := i;
    assert src[..k] == Take(CString(src), n) by {
      if k == |src| || src[k] == '\0' {
        CStringPrefix(src, k);
      } else {
        CStringAtLeast(src, k);
      }
    }
    while i < n
      invariant k <= i <= n
      invariant dst[..i] == src[..k] + Zeros(i - k)
      invariant dst[n..] == old(dst[n..])
    {
      dst[i] := '\0';
      i := i + 1;
      assert dst[..i] == dst[..i - 1] + ['\0'];
    }
  }

  /** strncpy of one less than the size, then the terminator. */
  method FillField(field: array<char>, src: string)
    requires field.Length > 0
    modifies field
    ensures field[..] == Field(src, field.Length)
  {
    StrNCpy(field, src, field.Length - 1);
    ghost var t := Take(CString(src), field.Length - 1);
    field[field.Length - 1] := '\0';
    assert field[..] == field[..field.Length - 1] + ['\0'];
    assert Zeros(field.Length - |t|) == Zeros(field.Length - 1 - |t|) + ['\0'];
  }

  /** The name copy of `ensure_connected` into a zeroed `ifreq`. */
  method FillIfrName(ifr: array<char>, name: string)
    requires ifr.Length == IF_NAME_SIZE && ifr[..] == Zeros(IF_NAME_SIZE)
    modifies ifr
    ensures ifr[..] == IfrField(name)
  {
    var len := if |name| <= IF_NAME_SIZE - 1 then |name| else IF_NAME_SIZE - 1;
    for i := 0 to len
      invariant ifr[..i] == name[..i]
      invariant forall k :: i <= k < IF_NAME_SIZE ==> ifr[k] == '\0'
    {
      ifr[i] := name[i];
    }
    ifr[len] := '\0';
    assert ifr[len..] == Zeros(IF_NAME_SIZE - len);
    assert ifr[..] == ifr[..len] + ifr[len..];
  }

  datatype RequestType =
    | SET_INTERFACE_STATE | CHECK_INTERFACE_STATE | VALIDATE_CAN_HARDWARE | CREATE_VCAN_INTERFACE
    | CLIENT_REGISTER | INTERFACE_EXISTS | INTERFACE_IS_UP

  class NetlinkRequest {
    var operation: RequestType
    var up: bool
    var setBitrate: bool
    var bitrate: Uint32
    const interfaceName: array<char>

    constructor State(name: string, state: bool, bitrateFlag: bool, rate: Uint32)
      ensures operation == SET_INTERFACE_STATE && up == state && setBitrate == bitrateFlag && bitrate == rate
      ensures fresh(interfaceName) && interfaceName.Length == 16
      ensures CString(interfaceName[..]) == LinkName(name)
    {
      operation := SET_INTERFACE_STATE;
      up := state;
      setBitrate := bitrateFlag;
      bitrate := rate;
      interfaceName := new char[IF_NAME_SIZE](_ => '\0');
      new;
      FillField(interfaceName, name);
      FieldReadsBack(name, IF_NAME_SIZE);
    }

    constructor Query(op: RequestType, name: string)
      ensures operation == op && !up && !setBitrate && bitrate == 0
      ensures fresh(interfaceName) && interfaceName.Length == 16
      ensures CString(interfaceName[..]) == LinkName(name)
    {
      operation := op;
      up := false;
      setBitrate := false;
      bitrate := 0;
      interfaceName := new char[IF_NAME_SIZE](_ => '\0');
      new;
      FillField(interfaceName, name);
      FieldReadsBack(name, IF_NAME_SIZE);
    }
  }

  class ClientRegisterResponse {
    var result: int
    const clientChannelName: array<char>

    /** The client reads back exactly the channel name of the pid the response was made for. */
    constructor (res: int, pid: Pid)
      ensures result == res && fresh(clientChannelName) && clientChannelName.Length == 64
      ensures clientChannelName[..] == Field(ChannelName(pid), CHANNEL_FIELD_SIZE)
      ensures CString(clientChannelName[..]) == ChannelName(pid)
    {
      result := res;
      clientChannelName := new char[CHANNEL_FIELD_SIZE](_ => '\0');
      new;
      FillField(clientChannelName, ChannelName(pid));
      ChannelNameSurvives(pid);
    }
  }
}
