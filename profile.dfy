/** The two growth units, `Tree` (src/tree.js) and `VoiceTree` (src/voice.js),
    share one body of code; this module holds every constant and random
    choice in which the two files differ. */
module Profile {
  import opened Random

  datatype Kind = Tree | VoiceTree

  /** maxSegments: the buffers hold two vertices (six floats) per segment. */
  function MaxSegments(k: Kind): (n: nat)
    ensures n > 0
  {
    match k
    case Tree => 12000
    case VoiceTree => 15000
  }

  function MaxDepth(k: Kind): (n: nat)
    ensures n > 0
  {
    match k
    case Tree => 6
    case VoiceTree => 7
  }

  /** The random early stop of growBranch: only deeper than 1 (Tree) or 2
      (VoiceTree), with probability depth * 0.12 (Tree) or depth * 0.1. */
  function StopFloor(k: Kind): nat
  {
    match k
    case Tree => 1
    case VoiceTree => 2
  }

  function StopRate(k: Kind): real
  {
    match k
    case Tree => 0.12
    case VoiceTree => 0.1
  }

  /** Whether the early-stop test is reached at this depth (it consumes a draw). */
  predicate StopTested(k: Kind, depth: nat)
  {
    depth > StopFloor(k)
  }

  predicate Stops(k: Kind, depth: nat, r: real)
  {
    StopTested(k, depth) && r < depth as real * StopRate(k)
  }

  /** 2 + floor(r * 3) trunks for Tree, 2 + floor(r * 2) for VoiceTree. */
  function TrunkCount(k: Kind, r: real): (n: int)
    requires 0.0 <= r < 1.0
    ensures k == Tree ==> 2 <= n <= 4
    ensures k == VoiceTree ==> 2 <= n <= 3
  {
    match k
    case Tree => 2 + (r * 3.0).Floor
    case VoiceTree => 2 + (r * 2.0).Floor
  }

  /** Trunk length before scaling: 15 + r * 10 (Tree), 30 + r * 15 (VoiceTree). */
  function TrunkLength(k: Kind, r: real): (len: real)
    requires 0.0 <= r < 1.0
    ensures k == Tree ==> 15.0 <= len < 25.0
    ensures k == VoiceTree ==> 30.0 <= len < 45.0
  {
    match k
    case Tree => 15.0 + r * 10.0
    case VoiceTree => 30.0 + r * 15.0
  }

  /** treeScale, drawn once at construction. */
  function TreeScale(k: Kind, r: real): (s: real)
    requires 0.0 <= r < 1.0
    ensures k == Tree ==> 0.7 <= s < 1.5
    ensures k == VoiceTree ==> 1.0 <= s < 1.8
  {
    match k
    case Tree => 0.7 + r * 0.8
    case VoiceTree => 1.0 + r * 0.8
  }

  /** Tree draws its threshold in [0.15, 0.4); VoiceTree fixes it at 0.3 and
      compares it with squared energy. */
  predicate DrawsThreshold(k: Kind)
  {
    k == Tree
  }

  function TriggerThreshold(k: Kind, r: real): (t: real)
    requires 0.0 <= r < 1.0
    ensures k == Tree ==> 0.15 <= t < 0.4
    ensures k == VoiceTree ==> t == 0.3
  {
    match k
    case Tree => 0.15 + r * 0.25
    case VoiceTree => 0.3
  }

  /** The four base colours as hex values. */
  function Palette(k: Kind): (p: seq<int>)
    ensures |p| == 4
    ensures forall i :: 0 <= i < 4 ==> 0 <= p[i] <= 0xFFFFFF
  {
    match k
    case Tree => [0xFF0044, 0x00AAFF, 0xAA00FF, 0xFFFFFF]
    case VoiceTree => [0xFF0000, 0xCC0000, 0xFF4444, 0x880000]
  }

  /** floor(r * palette.length). */
  function PaletteIndex(r: real): (i: int)
    requires 0.0 <= r < 1.0
    ensures 0 <= i < 4
  {
    (r * 4.0).Floor
  }

  /** How many draws the child count of growBranch consumes. Tree always draws
      r first and at depth 0 a second value; VoiceTree draws once at depth 0
      and once or twice (short-circuit) below. */
  function ChildDraws(k: Kind, depth: nat, d: nat -> real, c: nat): (n: nat)
    ensures 1 <= n <= 2
  {
    match k
    case Tree => if depth == 0 then 2 else 1
    case VoiceTree => if depth == 0 || d(c) < 0.3 then 1 else 2
  }

  /** The number of child branches, from the draws at d(c) and d(c + 1). */
  function ChildCount(k: Kind, depth: nat, d: nat -> real, c: nat): (n: int)
    requires UnitDraws(d)
    ensures depth == 0 ==> 2 <= n <= 4
    ensures depth > 0 ==> 1 <= n <= 3
  {
    match k
    case Tree =>
      if depth == 0 then 2 + (d(c + 1) * 3.0).Floor
      else if d(c) < 0.3 then 1
      else if d(c) < 0.8 then 2
      else 3
    case VoiceTree =>
      if depth == 0 then 2 + (d(c) * 3.0).Floor
      else if d(c) < 0.3 then 1
      else if d(c + 1) < 0.8 then 2
      else 3
  }
}
