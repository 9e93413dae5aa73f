/**
 * The arithmetic rules the player applies to its own state: the playlist
 * cursor moved by `next`/`prev`, the volume rule of `updateVolume` and the
 * clamped 15-second skip of `setProgressTo15Secconds`. Positions, durations
 * and volumes are JavaScript numbers, modelled as `real`.
 */
module PlayerRules {

  /** The cursor after `next`: one further on, back to 0 past the last item. */
  function NextIndex(i: int, n: int): (r: int)
    requires 0 <= i < n
    ensures 0 <= r < n
    ensures r == (i + 1) % n
    ensures i == n - 1 ==> r == 0
    ensures i < n - 1 ==> r == i + 1
  {
    if i + 1 > n - 1 then 0 else i + 1
  }

  /** The cursor after `prev`: one back, round to the last item from 0. */
  function PrevIndex(i: int, n: int): (r: int)
    requires 0 <= i < n
    ensures 0 <= r < n
    ensures r == (i - 1) % n
    ensures i == 0 ==> r == n - 1
    ensures 0 < i ==> r == i - 1
  {
    if i - 1 < 0 then n - 1 else i - 1
  }

  /** `next` and `prev` undo each other. */
  lemma NextPrevInverse(i: int, n: int)
    requires 0 <= i < n
    ensures PrevIndex(NextIndex(i, n), n) == i
    ensures NextIndex(PrevIndex(i, n), n) == i
  {
  }

  /** The cursor after a sequence of button presses: `true` is `next`, `false` is `prev`. */
  function Walk(i: int, n: int, presses: seq<bool>): (r: int)
    requires 0 <= i < n
    ensures 0 <= r < n
    decreases |presses|
  {
    if presses == [] then i
    else Walk(if presses[0] then NextIndex(i, n) else PrevIndex(i, n), n, presses[1..])
  }

  /** Number of `next` presses minus number of `prev` presses. */
  function Net(presses: seq<bool>): int
  {
    if presses == [] then 0 else (if presses[0] then 1 else -1) + Net(presses[1..])
  }

  /** The remainder is the unique r in [0, n) with x == q * n + r. */
  lemma ModUnique(x: int, q: int, r: int, n: int)
    requires n > 0 && 0 <= r < n && x == q * n + r
    ensures x % n == r
  {
    var d := q - x / n;
    assert d * n == x % n - r;
  }

  lemma ModShift(a: int, b: int, n: int)
    requires n > 0
    ensures (a % n + b) % n == (a + b) % n
  {
    var x := a % n + b;
    var q := x / n;
    assert x == q * n + x % n;
    assert a == (a / n) * n + a % n;
    assert a + b == (q + a / n) * n + x % n;
    ModUnique(a + b, q + a / n, x % n, n);
  }

  /** Any sequence of presses moves the cursor round the playlist as addition
      modulo its length. */
  lemma {:induction false} WalkIsModular(i: int, n: int, presses: seq<bool>)
    requires 0 <= i < n
    ensures Walk(i, n, presses) == (i + Net(presses)) % n
    decreases |presses|
  {
    if presses != [] {
      var d := if presses[0] then 1 else -1;
      var j := if presses[0] then NextIndex(i, n) else PrevIndex(i, n);
      var rest := Net(presses[1..]);
      assert j == (i + d) % n;
      assert Walk(i, n, presses) == Walk(j, n, presses[1..]);
      WalkIsModular(j, n, presses[1..]);
      ModShift(i + d, rest, n);
      assert Net(presses) == d + rest;
    }
  }

  /** `updateVolume`: above 1 becomes 0, below 0 becomes 1, anything else is kept. */
  function WrapVolume(v: real): (r: real)
    ensures 0.0 <= r <= 1.0
    ensures r == v <==> 0.0 <= v <= 1.0
    ensures v > 1.0 ==> r == 0.0
    ensures v < 0.0 ==> r == 1.0
  {
    if v > 1.0 then 0.0 else if v < 0.0 then 1.0 else v
  }

  /** Applying the rule to a stored volume changes nothing. */
  lemma WrapVolumeIdempotent(v: real)
    ensures WrapVolume(WrapVolume(v)) == WrapVolume(v)
  {
  }

  /** `dir === 1 ? seek + 15 : seek - 15`: any direction other than 1 goes back. */
  function Skipped(pos: real, dir: int): real
  {
    if dir == 1 then pos + 15.0 else pos - 15.0
  }

  function Distance(x: real, y: real): real
  {
    if x <= y then y - x else x - y
  }

  /** The position `setProgressTo15Secconds(dir)` seeks to: the skipped
      position clamped into the track, i.e. the point of [0, duration]
      nearest to it. */
  function SkipTarget(pos: real, duration: real, dir: int): (r: real)
    requires 0.0 <= duration
    ensures 0.0 <= r <= duration
    ensures r == Skipped(pos, dir) <==> 0.0 <= Skipped(pos, dir) <= duration
    ensures forall x :: 0.0 <= x <= duration ==> Distance(r, Skipped(pos, dir)) <= Distance(x, Skipped(pos, dir))
  {
    var target := Skipped(pos, dir);
    if target >= duration then duration
    else if target <= 0.0 then 0.0
    else target
  }

  /** What the audio engine does with a seek request: the head lands inside the track. */
  function Clamp(p: real, duration: real): (r: real)
    requires 0.0 <= duration
    ensures 0.0 <= r <= duration
    ensures r == p <==> 0.0 <= p <= duration
  {
    if p < 0.0 then 0.0 else if p > duration then duration else p
  }
}
