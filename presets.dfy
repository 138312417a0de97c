/**
 * The quality preset table (PRESETS in src/App.jsx): each named preset maps
 * to the recorder's target bitrate in bits per second. Slower presets mean
 * higher quality and so a higher bitrate.
 */
module Presets {
  import opened Wrappers

  datatype Preset = VerySlow | Slow | Normal | Fast | VeryFast | UltraFast

  /** The table's keys, in the order the quality selector lists them. */
  const Order: seq<Preset> := [VerySlow, Slow, Normal, Fast, VeryFast, UltraFast]

  /** The key under which a preset is stored, also the selector's option value. */
  function Key(p: Preset): string
  {
    match p
    case VerySlow => "veryslow"
    case Slow => "slow"
    case Normal => "normal"
    case Fast => "fast"
    case VeryFast => "veryfast"
    case UltraFast => "ultrafast"
  }

  /** Indexing the table by a key; a key that is not in the table finds nothing. */
  function Lookup(key: string): (r: Option<Preset>)
    ensures r.Some? ==> Key(r.value) == key
  {
    match key
    case "veryslow" => Some(VerySlow)
    case "slow" => Some(Slow)
    case "normal" => Some(Normal)
    case "fast" => Some(Fast)
    case "veryfast" => Some(VeryFast)
    case "ultrafast" => Some(UltraFast)
    case _ => None
  }

  /** The `bitrate` entry of a preset, in bits per second. */
  function Bitrate(p: Preset): (r: nat)
    ensures 400000 <= r <= 8000000
  {
    match p
    case VerySlow => 8000000
    case Slow => 5000000
    case Normal => 2500000
    case Fast => 1500000
    case VeryFast => 800000
    case UltraFast => 400000
  }

  /** The preset's position in Order. */
  function Rank(p: Preset): (r: nat)
    ensures r < |Order| && Order[r] == p
  {
    match p
    case VerySlow => 0
    case Slow => 1
    case Normal => 2
    case Fast => 3
    case VeryFast => 4
    case UltraFast => 5
  }

  /** Every key finds its own preset, and Order lists each preset exactly once. */
  lemma KeysRoundTrip(p: Preset)
    ensures Lookup(Key(p)) == Some(p)
    ensures forall i :: 0 <= i < |Order| && Order[i] == p ==> i == Rank(p)
  {
  }

  /** Bitrates strictly decrease along Order: a later preset never has a higher bitrate. */
  lemma BitrateStrictlyDecreasing(i: nat, j: nat)
    requires i < j < |Order|
    ensures Bitrate(Order[i]) > Bitrate(Order[j])
  {
  }

  /** Comparing presets by position is the reverse of comparing their bitrates. */
  lemma SlowerMeansHigherBitrate(p: Preset, q: Preset)
    ensures Rank(p) < Rank(q) <==> Bitrate(p) > Bitrate(q)
  {
    if Rank(p) < Rank(q) {
      BitrateStrictlyDecreasing(Rank(p), Rank(q));
    } else if Rank(q) < Rank(p) {
      BitrateStrictlyDecreasing(Rank(q), Rank(p));
    }
  }

  /** The table's values, key by key. */
  lemma BitrateTable()
    ensures Lookup("veryslow") == Some(VerySlow) && Bitrate(VerySlow) == 8000000
    ensures Lookup("slow") == Some(Slow) && Bitrate(Slow) == 5000000
    ensures Lookup("normal") == Some(Normal) && Bitrate(Normal) == 2500000
    ensures Lookup("fast") == Some(Fast) && Bitrate(Fast) == 1500000
    ensures Lookup("veryfast") == Some(VeryFast) && Bitrate(VeryFast) == 800000
    ensures Lookup("ultrafast") == Some(UltraFast) && Bitrate(UltraFast) == 400000
  {
  }
}
