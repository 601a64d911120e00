/**
 * The area name `areaFound` takes from a reverse-geocoded address: the text
 * after the last comma, trimmed.
 */
module Geocode {
  import opened JsText

  /**
   * `k` is where the last comma-separated segment of `address` starts: at the
   * beginning or right after a comma, with no comma from there on.
   */
  ghost predicate LastSegmentStart(address: string, k: int) {
    0 <= k <= |address| && (k == 0 || address[k - 1] == ',') && ',' !in address[k..]
  }

  /** Every address has exactly one such start. */
  lemma LastSegmentStartUnique(address: string, k1: int, k2: int)
    requires LastSegmentStart(address, k1) && LastSegmentStart(address, k2)
    ensures k1 == k2
  {
  }

  /**
   * `address.substring(address.lastIndexOf(",") + 1).trim()`. A missing comma
   * makes `lastIndexOf` return -1 and the whole address is kept.
   */
  function AreaFromAddress(address: string): (area: string)
    ensures exists k :: LastSegmentStart(address, k) && area == Trim(address[k..])
    ensures ',' !in area
    ensures ',' !in address ==> area == Trim(address)
  {
    var k := LastIndexOf(address, ',') + 1;
    var segment := Substring(address, k);
    assert segment == address[k..];
    assert LastSegmentStart(address, k) by {
      forall i | 0 <= i < |segment| ensures segment[i] != ',' {
        assert segment[i] == address[k + i];
      }
    }
    var area := Trim(segment);
    assert ',' !in area by {
      if ',' in area { TrimKeepsOnly(segment, ','); }
    }
    area
  }

  /** Whatever precedes the last comma is dropped: only the trimmed tail is kept. */
  lemma AreaIsTrimmedTail(head: string, tail: string)
    requires head != [] && head[|head| - 1] == ',' && ',' !in tail
    ensures AreaFromAddress(head + tail) == Trim(tail)
  {
    var address := head + tail;
    assert address[|head|..] == tail;
    assert LastSegmentStart(address, |head|);
    var k :| LastSegmentStart(address, k) && AreaFromAddress(address) == Trim(address[k..]);
    LastSegmentStartUnique(address, k, |head|);
  }

  /**
   * The usual shape of a provider address, segments separated by ", ": the
   * area is the last segment, provided it has no whitespace at either end.
   */
  lemma AreaIsLastName(head: string, name: string)
    requires name != [] && ',' !in name
    requires !IsJsWhitespace(name[0]) && !IsJsWhitespace(name[|name| - 1])
    ensures AreaFromAddress(head + ", " + name) == name
  {
    var prefix, tail := head + ",", " " + name;
    assert head + ", " + name == prefix + tail;
    AreaIsTrimmedTail(prefix, tail);
    assert tail[1..] == name;
    TrimSkipsLeading(tail);
    TrimOfTrimmed(name);
  }

  /** The example of a full street address: only the country is kept. */
  lemma StreetAddressExample(address: string)
    requires address == "12 Main St, Springfield, IL, USA"
    ensures AreaFromAddress(address) == "USA"
  {
    var head, name := address[..27], address[29..];
    assert address == head + ", " + name;
    AreaIsLastName(head, name);
  }
}
