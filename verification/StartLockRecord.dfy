/**
 The owner record that internal/daemon/start_lock.go writes into a lock file.
 A char stands for the byte with that code.
 */
module StartLockRecord {
  import opened Common
  import opened Decimal
  import opened Pieces

  const MAX_PID: nat := 0x7fff_ffff
  const NONCE_CHARS: nat := 32

  datatype Owner = Owner(pid: nat, nonce: string)

  // ---------------------------------------------------------------- nonce

  function Lower(s: string): (r: string)
    ensures |r| == |s|
    ensures forall i :: 0 <= i < |s| ==> r[i] == if 'A' <= s[i] <= 'Z' then s[i] + 32 as char else s[i]
  {
    seq(|s|, i requires 0 <= i < |s| => if 'A' <= s[i] <= 'Z' then s[i] + 32 as char else s[i])
  }

  predicate ValidNonce(nonce: string) {
    && |nonce| == NONCE_CHARS
    && Lower(nonce) == nonce
    && forall i :: 0 <= i < |nonce| ==> IsHex(nonce[i])
  }

  predicate IsLowerHex(c: char) {
    '0' <= c <= '9' || 'a' <= c <= 'f'
  }

  /** A nonce is accepted exactly when it is 32 lowercase hexadecimal digits. */
  lemma ValidNonceIsLowerHex(nonce: string)
    ensures ValidNonce(nonce) <==> |nonce| == NONCE_CHARS && forall i :: 0 <= i < |nonce| ==> IsLowerHex(nonce[i])
  {
    if |nonce| == NONCE_CHARS && forall i :: 0 <= i < |nonce| ==> IsLowerHex(nonce[i]) {
      assert Lower(nonce) == nonce;
    }
    if ValidNonce(nonce) {
      forall i | 0 <= i < |nonce| ensures IsLowerHex(nonce[i]) {
        assert Lower(nonce)[i] == nonce[i];
      }
    }
  }

  // ---------------------------------------------------------------- printing and parsing

  function Record(digits: string, nonce: string): string {
    "version=1" + "\n" + ("pid=" + digits + "\n" + ("nonce=" + nonce + "\n" + ""))
  }

  function Print(o: Owner): string {
    Record(Dec(o.pid), o.nonce)
  }

  function Parse(body: string): Option<Owner> {
    var lines := Split(body, NEWLINE);
    if |lines| != 4 || lines[0] != "version=1" || lines[3] != "" then None
    else if !HasPrefix(lines[1], "pid=") || !HasPrefix(lines[2], "nonce=") then None
    else
      var pidText := lines[1][4..];
      var nonce := lines[2][6..];
      if pidText == "" || !ValidNonce(nonce) || !AllDigits(pidText) then None
      else
        var pid := Value(pidText);
        // ParseUint with 32 bits, then the cross-platform bound
        if pid > 0xffff_ffff || pid == 0 || pid > MAX_PID then None
        else Some(Owner(pid, nonce))
  }

  predicate ValidOwner(o: Owner) {
    0 < o.pid <= MAX_PID && ValidNonce(o.nonce)
  }

  lemma NonceHasNoNewline(nonce: string)
    requires ValidNonce(nonce)
    ensures '\n' !in nonce
  {
    assert forall c :: c in nonce ==> IsHex(c);
  }

  lemma RecordLines(digits: string, nonce: string)
    requires AllDigits(digits) && '\n' !in nonce
    ensures Split(Record(digits, nonce), NEWLINE) == ["version=1", "pid=" + digits, "nonce=" + nonce, ""]
  {
    assert '\n' !in digits;
    SplitMore("nonce=" + nonce, "", NEWLINE);
    SplitMore("pid=" + digits, "nonce=" + nonce + "\n" + "", NEWLINE);
    SplitMore("version=1", "pid=" + digits + "\n" + ("nonce=" + nonce + "\n" + ""), NEWLINE);
  }

  /** The parser accepts exactly the records: a version line, a nonempty decimal
      numeral for a process id in range, and a nonce, each ended by a newline. */
  lemma ParseAcceptsExactlyRecords(body: string, o: Owner)
    ensures Parse(body) == Some(o) <==>
            && ValidOwner(o)
            && exists digits ::
                 AllDigits(digits) && digits != "" && Value(digits) == o.pid && body == Record(digits, o.nonce)
  {
    if Parse(body) == Some(o) {
      var lines := Split(body, NEWLINE);
      JoinOfSplit(body, NEWLINE);
      var digits := lines[1][4..];
      assert lines[1] == "pid=" + digits && lines[2] == "nonce=" + o.nonce;
      assert lines == ["version=1", "pid=" + digits, "nonce=" + o.nonce, ""];
      assert Join(lines[2..], NEWLINE) == "nonce=" + o.nonce + "\n" + "";
      assert Join(lines[1..], NEWLINE) == "pid=" + digits + "\n" + Join(lines[2..], NEWLINE) by {
        assert lines[1..][1..] == lines[2..];
      }
      assert body == Record(digits, o.nonce);
    }
    if ValidOwner(o) {
      if digits :| AllDigits(digits) && digits != "" && Value(digits) == o.pid && body == Record(digits, o.nonce) {
        NonceHasNoNewline(o.nonce);
        RecordLines(digits, o.nonce);
        assert ("pid=" + digits)[4..] == digits && ("nonce=" + o.nonce)[6..] == o.nonce;
      }
    }
  }

  /** Reading a written record gives back the same process id and nonce. */
  lemma RoundTrip(o: Owner)
    requires ValidOwner(o)
    ensures Parse(Print(o)) == Some(o)
  {
    ValueOfDec(o.pid);
    ParseAcceptsExactlyRecords(Print(o), o);
  }

  /** A record cut short anywhere is attributed to nobody. */
  lemma TornRecordIsUnknown(o: Owner, k: nat)
    requires ValidOwner(o) && k < |Print(o)|
    ensures Parse(Print(o)[..k]) == None
  {
    var s := Print(o);
    ValueOfDec(o.pid);
    NonceHasNoNewline(o.nonce);
    RecordLines(Dec(o.pid), o.nonce);
    SplitCount(s, NEWLINE);
    var last := |s| - 1;
    assert s == s[..k] + s[k..last] + s[last..];
    assert s[last..] == "\n";
    CountOfConcat(s[..k] + s[k..last], s[last..], NEWLINE);
    CountOfConcat(s[..k], s[k..last], NEWLINE);
    SplitCount(s[..k], NEWLINE);
  }
}
