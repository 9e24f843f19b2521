/** The wallet card's address shortening. */
module WalletInfo {
  import opened Wrappers
  import opened JsString

  /** `${address.slice(0, 6)}...${address.slice(-6)}`. */
  function FormatAddress(address: string): (r: string)
    ensures var k := Min(6, |address|);
      r == address[..k] + "..." + address[|address| - k..]
    ensures |address| >= 6 ==> |r| == 15
    ensures |address| < 6 ==> r == address + "..." + address && |r| == 2 * |address| + 3
  {
    var head := Slice(address, 0, 6);
    var tail := SliceFrom(address, -6);
    var k := Min(6, |address|);
    assert head == address[..k];
    assert tail == address[|address| - k..];
    assert |address| < 6 ==> address[..k] == address && address[|address| - k..] == address;
    head + "..." + tail
  }

  /** From twelve characters on, the two ends shown do not overlap: they are distinct parts of the address. */
  lemma EndsDisjointFromTwelve(address: string)
    requires |address| >= 12
    ensures var r := FormatAddress(address);
      && r[..6] + r[9..] == address[..6] + address[|address| - 6..]
      && address == r[..6] + address[6..|address| - 6] + r[9..]
  {
    var r := FormatAddress(address);
    assert r[..6] == address[..6];
    assert r[9..] == address[|address| - 6..];
    assert address == address[..6] + address[6..|address| - 6] + address[|address| - 6..];
  }

  /** Only the first and last six characters are shown: addresses that agree on them look the same. */
  lemma SameEndsSameDisplay(a: string, b: string)
    requires |a| >= 6 && |b| >= 6
    requires a[..6] == b[..6] && a[|a| - 6..] == b[|b| - 6..]
    ensures FormatAddress(a) == FormatAddress(b)
  {
  }
}
