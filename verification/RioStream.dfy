/** Buffered reading over a descriptor whose read() may return any short count
    and may be interrupted: what the caller gets depends only on the bytes of
    the stream. */
module RioStream {
  import opened Collections

  type byte = b: int | 0 <= b < 256

  const BUFSIZE: nat := 8192
  const MAXLINE: nat := 8192
  const NEWLINE: byte := 10

  datatype Errno = OK | EINTR | EIO

  /** A file descriptor: the bytes still to be read, and those written. The
      choices of the kernel are left open: any positive count up to what is
      asked for and there, finitely many interruptions, and other errors when
      the descriptor is faulty. */
  class Descriptor {
    const faulty: bool
    var data: seq<byte>
    var written: seq<byte>
    var interrupts: nat

    constructor (data: seq<byte>, interrupts: nat, faulty: bool)
      ensures this.data == data && this.interrupts == interrupts && this.faulty == faulty && written == []
    {
      this.data, this.interrupts, this.faulty, written := data, interrupts, faulty, [];
    }

    method Read(buf: array<byte>) returns (cnt: int, errno: Errno)
      requires buf.Length > 0
      modifies this`data, this`interrupts, buf
      ensures errno == OK <==> cnt >= 0
      ensures errno != OK ==> cnt == -1 && data == old(data) && buf[..] == old(buf[..])
      ensures if errno == EINTR then interrupts < old(interrupts) else interrupts == old(interrupts)
      ensures errno == EIO ==> faulty
      ensures errno == OK ==> cnt <= |old(data)| && cnt <= buf.Length && (cnt == 0 <==> old(data) == [])
      ensures errno == OK ==> buf[..cnt] == old(data)[..cnt] && data == old(data)[cnt..]
    {
      var interrupted: bool, failed: bool := *, *;
      if interrupts > 0 && interrupted {
        interrupts := interrupts - 1;
        return -1, EINTR;
      }
      if faulty && failed {
        return -1, EIO;
      }
      if data == [] {
        return 0, OK;
      }
      var k :| 1 <= k <= |data| && k <= buf.Length;
      forall i | 0 <= i < k {
        buf[i] := data[i];
      }
      data := data[k..];
      cnt, errno := k, OK;
    }

    method Write(buf: array<byte>, from: nat, n: nat) returns (cnt: int, errno: Errno)
      requires from + n <= buf.Length && n > 0
      modifies this`written, this`interrupts
      ensures errno == OK <==> cnt > 0
      ensures errno != OK ==> cnt == -1 && written == old(written)
      ensures if errno == EINTR then interrupts < old(interrupts) else interrupts == old(interrupts)
      ensures errno == EIO ==> faulty
      ensures errno == OK ==> cnt <= n && written == old(written) + buf[from..from + cnt]
    {
      var interrupted: bool, failed: bool := *, *;
      if interrupts > 0 && interrupted {
        interrupts := interrupts - 1;
        return -1, EINTR;
      }
      if faulty && failed {
        return -1, EIO;
      }
      var k :| 1 <= k <= n;
      written := written + buf[from..from + k];
      cnt, errno := k, OK;
    }
  }

  // ---- the plain stream ----

  /** A line: up to the first newline, but at most `limit` bytes, or to the end. */
  function LineOf(s: seq<byte>, limit: nat): (line: seq<byte>)
    ensures |line| <= limit && |line| <= |s|
  {
    if s == [] || limit == 0 then []
    else if s[0] == NEWLINE then [NEWLINE]
    else [s[0]] + LineOf(s[1..], limit - 1)
  }

  /** What a line is: a prefix without an inner newline that stops at a newline,
      at the limit, or at the end, and nowhere else. */
  lemma {:induction false} LineOfIsALine(s: seq<byte>, limit: nat)
    ensures var line := LineOf(s, limit);
            && line <= s
            && (forall i :: 0 <= i < |line| - 1 ==> line[i] != NEWLINE)
            && (|line| == limit || |line| == |s| || (line != [] && line[|line| - 1] == NEWLINE))
  {
    if s != [] && limit > 0 && s[0] != NEWLINE {
      LineOfIsALine(s[1..], limit - 1);
    }
  }

  /** The bytes a line read has passed are a line or the start of one. */
  lemma {:induction false} LineOfExtends(s: seq<byte>, limit: nat, k: nat)
    requires k <= |s| && k <= limit && forall i :: 0 <= i < k ==> s[i] != NEWLINE
    ensures LineOf(s, limit) == s[..k] + LineOf(s[k..], limit - k)
  {
    if k > 0 {
      LineOfExtends(s[1..], limit - 1, k - 1);
      assert s[1..][k - 1..] == s[k..];
      assert s[..k] == [s[0]] + s[1..][..k - 1];
    } else {
      assert s[0..] == s;
    }
  }

  /** The first k bytes hold no newline. */
  ghost predicate Unbroken(s: seq<byte>, k: nat) {
    k <= |s| && forall i :: 0 <= i < k ==> s[i] != NEWLINE
  }

  /** The line ends here if the stream does, or with the next byte if that is a newline. */
  lemma LineStep(s: seq<byte>, limit: nat, k: nat)
    requires Unbroken(s, k) && k <= limit
    ensures k == |s| || k == limit ==> LineOf(s, limit) == s[..k]
    ensures k < |s| && k < limit && s[k] == NEWLINE ==> LineOf(s, limit) == s[..k + 1]
    ensures k < |s| && s[k] != NEWLINE ==> Unbroken(s, k + 1)
  {
    LineOfExtends(s, limit, k);
  }

  lemma NothingRead(s: seq<byte>)
    ensures Unbroken(s, 0) && s[0..] == s && s[..0] == []
  {
  }

  /** Bytes taken from the stream s so far, and the next k of them put behind. */
  lemma TakeMore(s: seq<byte>, taken: nat, k: nat, before: seq<byte>, after: seq<byte>)
    requires taken + k <= |s| && taken + k <= |before|
    requires before[..taken] == s[..taken]
    requires after == before[..taken] + s[taken..][..k] + before[taken + k..]
    ensures after[..taken + k] == s[..taken + k] && s[taken..][k..] == s[taken + k..]
    ensures k > 0 ==> after[taken] == s[taken]
  {
    assert s[..taken + k] == s[..taken] + s[taken..][..k];
  }

  /** The next byte of the stream s. */
  lemma OneMore(s: seq<byte>, taken: nat)
    requires taken < |s|
    ensures s[taken..][0] == s[taken] && s[taken..][1..] == s[taken + 1..] && s[..taken + 1] == s[..taken] + [s[taken]]
  {
  }

  // ---- the page the proxy collects ----

  /** The array after a page has been copied to it line by line, when it fits:
      the page, a terminator, and the rest as it was. No line, no copy. */
  function Copied(before: seq<byte>, page: seq<byte>): seq<byte> {
    if 0 < |page| < |before| then page + [0] + before[|page| + 1..] else before
  }

  lemma CopiedNothing(before: seq<byte>)
    ensures Copied(before, []) == before
  {
  }

  lemma CopiedMore(before: seq<byte>, page: seq<byte>, line: seq<byte>)
    requires line != [] && |page| + |line| < |before|
    ensures var a := Copied(before, page);
            |a| == |before| && a[..|page|] + line + [0] + a[|page| + |line| + 1..] == Copied(before, page + line)
  {
  }

  /** The array holds the page, as a C string. */
  ghost predicate Holds(a: seq<byte>, page: seq<byte>) {
    |page| < |a| && a[..|page|] == page && a[|page|] == 0
  }

  /** Whatever the array held before, it holds the page afterwards exactly when
      the page is not empty and fits. */
  lemma HoldsPageExactlyWhen(size: nat, page: seq<byte>)
    ensures (forall before: seq<byte> :: |before| == size ==> Holds(Copied(before, page), page)) <==> 0 < |page| < size
  {
    if |page| == 0 && size > 0 {
      EmptyResponse(size);
      assert !Holds(Copied(seq(size, _ => 65), []), []);
    } else if !(0 < |page| < size) {
      assert |seq(size, _ => 65 as byte)| == size;
    }
  }

  /** Nothing is copied for an empty response: an array that held no terminator
      still holds none. It passes the test for keeping it all the same. */
  lemma EmptyResponse(size: nat)
    ensures var a := Copied(seq(size, _ => 65), []); |a| == size && forall i :: 0 <= i < size ==> a[i] == 65
  {
  }

  // ---- the buffer ----

  class Rio {
    const fd: Descriptor
    const buf: array<byte>
    var cnt: int
    var ptr: nat

    ghost predicate Valid()
      reads this
    {
      buf.Length == BUFSIZE && ptr <= BUFSIZE && (cnt > 0 ==> ptr + cnt <= BUFSIZE)
    }

    /** The stream as the caller sees it: buffered bytes, then the descriptor's. */
    ghost function Unread(): seq<byte>
      reads this, buf, fd
      requires Valid()
    {
      (if cnt > 0 then buf[ptr..ptr + cnt] else []) + fd.data
    }

    constructor (fd: Descriptor)
      ensures Valid() && this.fd == fd && Unread() == fd.data && fresh(buf)
    {
      this.fd := fd;
      buf := new byte[BUFSIZE];
      cnt, ptr := 0, 0;
    }

    /** Refills an empty buffer, retrying interrupted reads. */
    method Refill() returns (errno: Errno)
      requires Valid()
      modifies this, buf, fd`data, fd`interrupts
      ensures Valid() && Unread() == old(Unread()) && fd.interrupts <= old(fd.interrupts)
      ensures errno == OK || (errno == EIO && fd.faulty && cnt <= 0)
      ensures errno == OK ==> (cnt > 0 <==> Unread() != []) && cnt >= 0
    {
      while cnt <= 0
        invariant Valid() && Unread() == old(Unread()) && fd.interrupts <= old(fd.interrupts)
        decreases if cnt <= 0 then fd.interrupts + 1 else 0
      {
        cnt, errno := fd.Read(buf);
        if cnt < 0 {
          if errno != EINTR {
            return errno;
          }
        } else if cnt == 0 {
          return OK;
        } else {
          ptr := 0;
        }
      }
      errno := OK;
    }

    /** rio_read: at most n bytes to usrbuf[at..]; 0 only at the end of the stream. */
    method Read(usrbuf: array<byte>, at: nat, n: nat) returns (rc: int)
      requires Valid() && usrbuf != buf && at + n <= usrbuf.Length && n > 0
      modifies this, buf, fd`data, fd`interrupts, usrbuf
      ensures Valid() && (rc == -1 ==> fd.faulty) && -1 <= rc <= n
      ensures var k := Max(0, rc);
              && k <= |old(Unread())|
              && usrbuf[..] == old(usrbuf[..at]) + old(Unread())[..k] + old(usrbuf[at + k..])
              && Unread() == old(Unread())[k..]
      ensures rc == 0 ==> old(Unread()) == []
    {
      var errno := Refill();
      if errno != OK || cnt == 0 {
        assert usrbuf[..] == usrbuf[..at] + [] + usrbuf[at..];
        return if errno != OK then -1 else 0;
      }
      rc := n;
      if cnt < n {
        rc := cnt;
      }
      CopyOut(usrbuf, at, rc);
      ptr := ptr + rc;
      cnt := cnt - rc;
    }

    /** The memcpy out of the buffer. */
    method CopyOut(usrbuf: array<byte>, at: nat, rc: nat)
      requires Valid() && usrbuf != buf && at + rc <= usrbuf.Length && rc <= cnt
      modifies usrbuf
      ensures usrbuf[..] == old(usrbuf[..at]) + buf[ptr..ptr + rc] + old(usrbuf[at + rc..])
    {
      forall i | 0 <= i < rc {
        usrbuf[at + i] := buf[ptr + i];
      }
    }

    /** rio_readnb: the next n bytes, fewer only at the end of the stream. */
    method ReadNB(usrbuf: array<byte>, n: nat) returns (rc: int, ghost taken: nat)
      requires Valid() && usrbuf != buf && n <= usrbuf.Length
      modifies this, buf, fd`data, fd`interrupts, usrbuf
      ensures Valid() && taken <= |old(Unread())| && taken <= n
      ensures usrbuf[..taken] == old(Unread())[..taken] && Unread() == old(Unread())[taken..]
      ensures (rc == -1 && fd.faulty) || (rc == taken == Min(n, |old(Unread())|))
    {
      hide Rio.Unread, Rio.Valid;
      ghost var s := Unread();
      var nleft, bufp := n, 0;
      taken := 0;
      while nleft > 0
        invariant Valid() && 0 <= nleft <= n && bufp == taken == n - nleft <= |s|
        invariant usrbuf[..taken] == s[..taken] && Unread() == s[taken..]
      {
        ghost var before := usrbuf[..];
        var nread := Read(usrbuf, bufp, nleft);
        TakeMore(s, taken, Max(0, nread), before, usrbuf[..]);
        if nread < 0 {
          return -1, taken;
        }
        if nread == 0 {
          break;
        }
        nleft := nleft - nread;
        bufp := bufp + nread;
        taken := taken + nread;
      }
      rc := n - nleft;
    }

    /** A read of one byte, into a variable. */
    method ReadByte() returns (rc: int, c: byte)
      requires Valid()
      modifies this, buf, fd`data, fd`interrupts
      ensures Valid() && -1 <= rc <= 1 && (rc == -1 ==> fd.faulty)
      ensures rc == 1 ==> old(Unread()) != [] && c == old(Unread())[0] && Unread() == old(Unread())[1..]
      ensures rc != 1 ==> Unread() == old(Unread())
      ensures rc == 0 ==> old(Unread()) == []
    {
      hide Rio.Unread, Rio.Valid;
      var one := new byte[1];
      rc := Read(one, 0, 1);
      c := one[0];
      assert one[..][0] == c;
    }

    /** rio_readlineb: the next line, with a zero byte after it. */
    method ReadLineB(usrbuf: array<byte>, maxlen: nat) returns (rc: int, ghost taken: nat)
      requires Valid() && usrbuf != buf && 1 <= maxlen <= usrbuf.Length
      modifies this, buf, fd`data, fd`interrupts, usrbuf
      ensures Valid() && taken <= |old(Unread())| && taken < maxlen
      ensures usrbuf[..taken] == old(Unread())[..taken] && Unread() == old(Unread())[taken..]
      ensures (rc == -1 && fd.faulty) || (rc == taken && old(Unread())[..taken] == LineOf(old(Unread()), maxlen - 1))
      ensures rc > 0 || (rc == 0 && maxlen == 1) ==> usrbuf[rc] == 0
    {
      hide Rio.Unread, Rio.Valid, LineOf, Unbroken;
      ghost var s := Unread();
      var n, bufp := 1, 0;
      taken := 0;
      NothingRead(s);
      LineStep(s, maxlen - 1, 0);
      while n < maxlen
        invariant Valid() && 1 <= n <= maxlen && bufp == taken == n - 1 <= |s|
        invariant usrbuf[..taken] == s[..taken] && Unread() == s[taken..]
        invariant Unbroken(s, taken)
        invariant n == maxlen ==> LineOf(s, maxlen - 1) == s[..taken]
      {
        LineStep(s, maxlen - 1, taken);
        var rc1, c := ReadByte();
        if rc1 == 1 {
          OneMore(s, taken);
          usrbuf[bufp] := c;
          bufp := bufp + 1;
          taken := taken + 1;
          if c == NEWLINE {
            n := n + 1;
            break;
          }
        } else if rc1 == 0 {
          if n == 1 {
            return 0, 0;
          }
          break;
        } else {
          return -1, taken;
        }
        LineStep(s, maxlen - 1, taken);
        n := n + 1;
      }
      ghost var line := usrbuf[..taken];
      usrbuf[bufp] := 0;
      assert usrbuf[..taken] == line;
      rc := n - 1;
    }

    /** Any mix of reads: the results are those of the plain stream, whatever the
        counts and interruptions behind them. */
    method RunScript(ops: seq<Op>) returns (outs: seq<seq<byte>>)
      requires Valid() && !fd.faulty && forall k :: 0 <= k < |ops| ==> ops[k].Line? ==> ops[k].maxlen >= 1
      modifies this, buf, fd`data, fd`interrupts
      ensures Valid() && Unread() == Rest(old(Unread()), ops)
      ensures outs == Outputs(old(Unread()), ops)
    {
      hide Rio.Unread, Rio.Valid, LineOf;
      ghost var s := Unread();
      outs := [];
      var k := 0;
      while k < |ops|
        invariant 0 <= k <= |ops| && Valid() && Unread() == Rest(s, ops[..k]) && outs == Outputs(s, ops[..k])
      {
        assert ops[..k + 1][..k] == ops[..k];
        var out := RunOp(ops[k]);
        outs := outs + [out];
        k := k + 1;
      }
      assert ops[..k] == ops;
    }

    method RunOp(op: Op) returns (out: seq<byte>)
      requires Valid() && !fd.faulty && (op.Line? ==> op.maxlen >= 1)
      modifies this, buf, fd`data, fd`interrupts
      ensures Valid() && out == Output(old(Unread()), op) && Unread() == old(Unread())[|out|..]
    {
      hide Rio.Unread, Rio.Valid, LineOf;
      match op
      case Bytes(n) =>
        var usrbuf := new byte[n];
        var rc, taken := ReadNB(usrbuf, n);
        out := usrbuf[..rc];
      case Line(maxlen) =>
        var usrbuf := new byte[maxlen];
        var rc, taken := ReadLineB(usrbuf, maxlen);
        out := usrbuf[..rc];
    }

    /** The proxy's forwarding loop: line by line, everything is passed on, and
        copied to object_buf. The source does not test whether a line still
        fits; from the first that does not, its copies run past the array, which
        the model records and does not follow. */
    method ForwardLines(object_buf: array<byte>) returns (forwarded: seq<byte>, total_size: nat, overran: bool)
      requires Valid() && !fd.faulty && object_buf != buf
      modifies this, buf, fd`data, fd`interrupts, object_buf
      ensures forwarded == old(Unread()) && total_size == |old(Unread())|
      ensures overran <==> total_size > 0 && total_size >= object_buf.Length
      ensures !overran ==> object_buf[..] == Copied(old(object_buf[..]), old(Unread()))
      ensures Valid() && Unread() == []
    {
      hide Rio.Unread, Rio.Valid, LineOf, Copied;
      ghost var s, before := Unread(), object_buf[..];
      CopiedNothing(before);
      forwarded, total_size, overran := [], 0, false;
      assert s[0..] == s;
      var line := new byte[MAXLINE];
      var n, taken := ReadLineB(line, MAXLINE);
      LineIsSome(s, MAXLINE - 1);
      while n != 0
        invariant Valid() && line != buf && line != object_buf && line.Length == MAXLINE
        invariant |forwarded| == total_size && 0 <= n <= MAXLINE && total_size + n <= |s|
        invariant forwarded == s[..total_size] && line[..n] == s[total_size..total_size + n]
        invariant Unread() == s[total_size + n..] && (n == 0 ==> total_size == |s|)
        invariant overran <==> total_size > 0 && total_size >= object_buf.Length
        invariant !overran ==> object_buf[..] == Copied(before, forwarded)
        decreases |s| - total_size
      {
        overran := CopyLine(object_buf, total_size, line, n, before, forwarded);
        forwarded := forwarded + line[..n];
        total_size := total_size + n;
        assert forwarded == s[..total_size];
        LineIsSome(s[total_size..], MAXLINE - 1);
        n, taken := ReadLineB(line, MAXLINE);
        assert s[total_size..][..n] == s[total_size..total_size + n];
        assert s[total_size..][n..] == s[total_size + n..];
      }
    }
  }

  /** strcpy of a line of n bytes, and its terminator, to object_buf + at. */
  method StrCpy(object_buf: array<byte>, at: nat, line: array<byte>, n: nat)
    requires line != object_buf && n <= line.Length && at + n < object_buf.Length
    modifies object_buf
    ensures object_buf[..] == old(object_buf[..at]) + line[..n] + [0] + old(object_buf[at + n + 1..])
  {
    forall i | 0 <= i < n {
      object_buf[at + i] := line[i];
    }
    object_buf[at + n] := 0;
  }

  /** One more line of the page goes behind what the array holds of it, unless
      it does not fit. */
  method CopyLine(object_buf: array<byte>, at: nat, line: array<byte>, n: nat,
                  ghost before: seq<byte>, ghost page: seq<byte>) returns (overran: bool)
    requires line != object_buf && 0 < n <= line.Length && at == |page| && |before| == object_buf.Length
    requires at < object_buf.Length ==> object_buf[..] == Copied(before, page)
    modifies object_buf
    ensures overran <==> at + n >= object_buf.Length
    ensures !overran ==> object_buf[..] == Copied(before, page + line[..n])
  {
    hide Copied;
    if at + n >= object_buf.Length {
      return true;
    }
    CopiedMore(before, page, line[..n]);
    ghost var a := object_buf[..];
    assert object_buf[..at] == a[..at] && object_buf[at + n + 1..] == a[at + n + 1..];
    StrCpy(object_buf, at, line, n);
    overran := false;
  }

  /** rio_writen: all n bytes, in order, over any number of short writes. */
  method WriteN(fd: Descriptor, usrbuf: array<byte>, n: nat) returns (rc: int, ghost sent: nat)
    requires n <= usrbuf.Length
    modifies fd`written, fd`interrupts
    ensures sent <= n && fd.written == old(fd.written) + usrbuf[..sent]
    ensures (rc == -1 && fd.faulty) || rc == sent == n
  {
    var nleft, bufp := n, 0;
    sent := 0;
    while nleft > 0
      invariant 0 <= nleft <= n && bufp == sent == n - nleft
      invariant fd.written == old(fd.written) + usrbuf[..sent]
      decreases nleft, fd.interrupts
    {
      var nwritten, errno := fd.Write(usrbuf, bufp, nleft);
      if nwritten <= 0 {
        if errno == EINTR {
          nwritten := 0;
        } else {
          return -1, sent;
        }
      }
      assert usrbuf[..sent] + usrbuf[sent..sent + nwritten] == usrbuf[..sent + nwritten];
      nleft := nleft - nwritten;
      bufp := bufp + nwritten;
      sent := sent + nwritten;
    }
    rc := n;
  }

  // ---- scripts of reads on the plain stream ----

  datatype Op = Bytes(n: nat) | Line(maxlen: nat)

  function Output(s: seq<byte>, op: Op): (out: seq<byte>)
    ensures |out| <= |s|
  {
    match op
    case Bytes(n) => s[..Min(n, |s|)]
    case Line(maxlen) => LineOf(s, if maxlen == 0 then 0 else maxlen - 1)
  }

  /** What a script leaves unread. */
  function Rest(s: seq<byte>, ops: seq<Op>): seq<byte> {
    if ops == [] then s else
      var r := Rest(s, ops[..|ops| - 1]);
      r[|Output(r, ops[|ops| - 1])|..]
  }

  function Outputs(s: seq<byte>, ops: seq<Op>): seq<seq<byte>> {
    if ops == [] then [] else
      var before := ops[..|ops| - 1];
      Outputs(s, before) + [Output(Rest(s, before), ops[|ops| - 1])]
  }

  function Flatten(outs: seq<seq<byte>>): seq<byte> {
    if outs == [] then [] else Flatten(outs[..|outs| - 1]) + outs[|outs| - 1]
  }

  /** The stream position before read k of a script. */
  function Position(s: seq<byte>, ops: seq<Op>, k: nat): nat
    requires k <= |ops|
  {
    |Flatten(Outputs(s, ops[..k]))|
  }

  /** Each read returns what stands at its position: the bytes asked for, fewer
      only at the end, or a line; and the next one goes on behind it. */
  lemma ScriptReads(s: seq<byte>, ops: seq<Op>, k: nat)
    requires k < |ops|
    ensures |Outputs(s, ops)| == |ops| && Position(s, ops, k) <= |s|
    ensures var out, rest := Outputs(s, ops)[k], s[Position(s, ops, k)..];
            && out <= rest && Position(s, ops, k + 1) == Position(s, ops, k) + |out|
            && match ops[k]
               case Bytes(n) => |out| == n || (|out| < n && |out| == |rest|)
               case Line(maxlen) =>
                 && |out| <= Max(0, maxlen - 1)
                 && (forall i :: 0 <= i < |out| - 1 ==> out[i] != NEWLINE)
                 && (|out| == Max(0, maxlen - 1) || |out| == |rest| || (out != [] && out[|out| - 1] == NEWLINE))
  {
    hide Output, Flatten, Outputs, Rest;
    OutputsLength(s, ops);
    OutputAt(s, ops, k);
    ScriptConserves(s, ops[..k]);
    var before := Flatten(Outputs(s, ops[..k]));
    assert s[|before|..] == Rest(s, ops[..k]);
    FlattenMore(s, ops, k);
    OutputIs(Rest(s, ops[..k]), ops[k]);
  }

  lemma {:induction false} OutputsLength(s: seq<byte>, ops: seq<Op>)
    ensures |Outputs(s, ops)| == |ops|
  {
    hide Output;
    if ops != [] { OutputsLength(s, ops[..|ops| - 1]); }
  }

  lemma {:induction false} OutputAt(s: seq<byte>, ops: seq<Op>, k: nat)
    requires k < |ops|
    ensures |Outputs(s, ops)| == |ops| && Outputs(s, ops)[k] == Output(Rest(s, ops[..k]), ops[k])
  {
    hide Output;
    OutputsLength(s, ops);
    OutputsLength(s, ops[..|ops| - 1]);
    if k < |ops| - 1 {
      OutputAt(s, ops[..|ops| - 1], k);
      assert ops[..|ops| - 1][..k] == ops[..k];
    }
  }

  lemma FlattenMore(s: seq<byte>, ops: seq<Op>, k: nat)
    requires k < |ops|
    ensures Flatten(Outputs(s, ops[..k + 1])) == Flatten(Outputs(s, ops[..k])) + Output(Rest(s, ops[..k]), ops[k])
  {
    hide Output, Rest;
    assert ops[..k + 1][..k] == ops[..k];
    var outs := Outputs(s, ops[..k + 1]);
    assert outs[..|outs| - 1] == Outputs(s, ops[..k]);
  }

  lemma OutputIs(r: seq<byte>, op: Op)
    ensures var out := Output(r, op);
            && out <= r
            && match op
               case Bytes(n) => |out| == n || (|out| < n && |out| == |r|)
               case Line(maxlen) =>
                 && |out| <= Max(0, maxlen - 1)
                 && (forall i :: 0 <= i < |out| - 1 ==> out[i] != NEWLINE)
                 && (|out| == Max(0, maxlen - 1) || |out| == |r| || (out != [] && out[|out| - 1] == NEWLINE))
  {
    match op
    case Bytes(n) =>
    case Line(maxlen) => LineOfIsALine(r, if maxlen == 0 then 0 else maxlen - 1);
  }

  /** Nothing is lost, repeated or reordered: what a script returned and what it
      left unread are the original stream. */
  lemma {:induction false} ScriptConserves(s: seq<byte>, ops: seq<Op>)
    ensures Flatten(Outputs(s, ops)) + Rest(s, ops) == s
  {
    if ops != [] {
      var before, op := ops[..|ops| - 1], ops[|ops| - 1];
      ScriptConserves(s, before);
      var r := Rest(s, before);
      OutputIsPrefix(r, op);
      hide Output;
      var outs := Outputs(s, ops);
      assert outs[..|outs| - 1] == Outputs(s, before);
      assert Output(r, op) + r[|Output(r, op)|..] == r;
    }
  }

  lemma OutputIsPrefix(s: seq<byte>, op: Op)
    ensures Output(s, op) <= s
  {
    if op.Line? { LineOfIsALine(s, if op.maxlen == 0 then 0 else op.maxlen - 1); }
  }

  /** A line of a stream that has not ended is not empty. */
  lemma LineIsSome(s: seq<byte>, limit: nat)
    requires limit > 0
    ensures LineOf(s, limit) == [] <==> s == []
  {
  }
}
