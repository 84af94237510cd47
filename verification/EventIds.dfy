/** The ids of streamed events (api/events_sse.go): "<epoch>-<seq>". */
module EventIds {
  import opened Options
  import opened Decimal
  import opened CapText

  const UINT64 := 0x1_0000_0000_0000_0000

  // leaseEventID.
  function EventId(epoch: string, seqNo: nat): string {
    epoch + "-" + Print(seqNo)
  }

  function IndexOf(s: string, c: char): (i: nat)
    ensures i <= |s| && c !in s[..i] && (i < |s| ==> s[i] == c)
  {
    if s == "" || s[0] == c then 0
    else
      var i := IndexOf(s[1..], c);
      assert s[..i + 1] == [s[0]] + s[1..][..i];
      i + 1
  }

  // strings.TrimSpace leaves nothing.
  predicate Blank(s: string) {
    forall i :: 0 <= i < |s| ==> IsSpace(s[i])
  }

  // parseLeaseEventID.
  function ParseId(id: string): Option<(string, nat)> {
    var i := IndexOf(id, '-');
    if i == |id| || i == 0 || i == |id| - 1 || '-' in id[i + 1..] then None
    else if Blank(id[..i]) then None
    else
      var n := ParseUint(id[i + 1..], UINT64);
      if n == None then None else Some((id[..i], n.value))
  }

  lemma IndexOfJoin(a: string, b: string)
    ensures '-' !in a ==> IndexOf(a + "-" + b, '-') == |a|
    ensures IndexOf(a + "-" + b, '-') <= |a|
  {
    var s := a + "-" + b;
    var i := IndexOf(s, '-');
    assert s[|a|] == '-' && forall j :: 0 <= j < i ==> s[..i][j] == s[j];
    assert forall j :: 0 <= j < |a| ==> s[j] == a[j];
  }

  // An event id parses back to its epoch and sequence number if and only if
  // the epoch has no dash and is not blank.
  lemma IdRoundTrip(epoch: string, seqNo: nat)
    requires seqNo < UINT64
    ensures ParseId(EventId(epoch, seqNo)) == Some((epoch, seqNo)) <==> '-' !in epoch && !Blank(epoch)
  {
    var id := EventId(epoch, seqNo);
    IndexOfJoin(epoch, Print(seqNo));
    ParseOfPrint(seqNo, UINT64);
    if '-' !in epoch {
      assert id[..|epoch|] == epoch && id[|epoch| + 1..] == Print(seqNo);
      assert '-' !in Print(seqNo);
    }
  }

  // What parses is one dash between a non-blank, dash-free epoch and digits;
  // printing the result again gives the same text exactly when the digits have
  // no superfluous leading zero.
  lemma ParsedIdShape(id: string)
    requires ParseId(id).Some?
    ensures var (epoch, n) := ParseId(id).value;
            && '-' !in epoch && !Blank(epoch) && n < UINT64
            && |epoch| < |id| && id[..|epoch| + 1] == epoch + "-"
            && (EventId(epoch, n) == id <==> Canonical(id[|epoch| + 1..]))
  {
    var i := IndexOf(id, '-');
    var epoch, digits := id[..i], id[i + 1..];
    assert id == epoch + "-" + digits;
    PrintOfValue(digits);
    if Print(Value(digits)) != digits {
      assert EventId(epoch, Value(digits))[i + 1..] == Print(Value(digits));
    }
  }
}
