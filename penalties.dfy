/**
 * The score arithmetic the unit policies share: a fixed penalty at or past
 * a critical threshold, a penalty growing linearly across the warning band,
 * and the final clamp of the score into [0, 100].
 */
module Penalties {

  lemma QuotientBelowOne(t: real, d: real)
    requires 0.0 <= t < d
    ensures 0.0 <= t / d < 1.0
  {
    var q := t / d;
    assert q * d == t;
  }

  /** Linear interpolation inside a warning band of width d. */
  lemma BandBound(band: real, t: real, d: real)
    requires 0.0 < band && 0.0 <= t < d
    ensures 0.0 <= band * t / d < band
    ensures band * t / d == 0.0 <==> t == 0.0
  {
    QuotientBelowOne(t, d);
    var q := t / d;
    assert band * t / d == band * q;
    assert band * q < band by {
      assert band * (1.0 - q) > 0.0;
    }
    if t != 0.0 {
      assert q * d == t;
      assert q != 0.0;
      assert band * q != 0.0;
    }
  }

  /** band·t/d, the share of the band penalty reached t into a band of width d. */
  function Interpolate(band: real, t: real, d: real): (p: real)
    requires 0.0 < band && 0.0 <= t < d
    ensures 0.0 <= p < band
    ensures p == 0.0 <==> t == 0.0
  {
    BandBound(band, t, d);
    band * t / d
  }

  lemma BandMonotone(band: real, t: real, u: real, d: real)
    requires 0.0 < band && 0.0 < d && t <= u
    ensures band * t / d <= band * u / d
    ensures 0.0 <= t && u < d ==> Interpolate(band, t, d) <= Interpolate(band, u, d)
  {
    var q := t / d;
    var r := u / d;
    assert q * d == t && r * d == u;
    assert band * t / d == band * q;
    assert band * u / d == band * r;
    assert band * (r - q) >= 0.0;
  }

  /** Penalty for a reading where high is bad. */
  function High(x: real, warn: real, crit: real, full: real, band: real): (p: real)
    requires warn < crit && 0.0 < band <= full
    ensures 0.0 <= p <= full
    ensures p == full <==> x >= crit
    ensures p == 0.0 <==> x <= warn
    ensures x < crit ==> p < band
  {
    if x >= crit then full
    else if x >= warn then Interpolate(band, x - warn, crit - warn)
    else 0.0
  }

  lemma HighMonotone(x: real, y: real, warn: real, crit: real, full: real, band: real)
    requires warn < crit && 0.0 < band <= full && x <= y
    ensures High(x, warn, crit, full, band) <= High(y, warn, crit, full, band)
  {
    if y >= crit {
    } else if x < warn {
    } else {
      BandMonotone(band, x - warn, y - warn, crit - warn);
    }
  }

  /** Penalty for a reading where low is bad. */
  function Low(x: real, warn: real, crit: real, full: real, band: real): (p: real)
    requires crit < warn && 0.0 < band <= full
    ensures 0.0 <= p <= full
    ensures p == full <==> x <= crit
    ensures p == 0.0 <==> x >= warn
    ensures x > crit ==> p < band
  {
    if x <= crit then full
    else if x <= warn then Interpolate(band, warn - x, warn - crit)
    else 0.0
  }

  lemma LowAntitone(x: real, y: real, warn: real, crit: real, full: real, band: real)
    requires crit < warn && 0.0 < band <= full && x <= y
    ensures Low(y, warn, crit, full, band) <= Low(x, warn, crit, full, band)
  {
    if x <= crit {
    } else if y > warn {
    } else {
      BandMonotone(band, warn - y, warn - x, warn - crit);
    }
  }

  /** qMax(0.0, qMin(100.0, s)). */
  function Clamp(s: real): (r: real)
    ensures 0.0 <= r <= 100.0
    ensures 0.0 <= s <= 100.0 ==> r == s
    ensures s < 0.0 ==> r == 0.0
    ensures s > 100.0 ==> r == 100.0
  {
    if s > 100.0 then 100.0 else if s < 0.0 then 0.0 else s
  }

  function FaultPenalty(faultCount: nat): (p: real)
    ensures p >= 0.0 && (p == 0.0 <==> faultCount == 0)
  {
    5.0 * faultCount as real
  }

  predicate StartsWith(s: string, prefix: string) {
    |prefix| <= |s| && s[..|prefix|] == prefix
  }

  lemma NotStartsWith(s: string, prefix: string)
    requires |s| > 0 && |prefix| > 0 && s[0] != prefix[0]
    ensures !StartsWith(s, prefix)
  {
  }

  lemma NotStartsWithAt(s: string, prefix: string, i: nat)
    requires i < |s| && i < |prefix| && s[i] != prefix[i]
    ensures !StartsWith(s, prefix)
  {
  }
}
