/**
 * `lbgt_extract_location`: the short "location" shown for a listing's
 * address in the admin table, taken to be the second-to-last
 * comma-separated part of the address (for "Street, Town, Country" that
 * is the town).
 */
module Location {
  import opened Php

  /** What the table shows for a listing without an address. */
  const NotAvailable := "N/A"

  /** `array_map('trim', $parts)`. */
  function TrimAll(parts: seq<string>): (r: seq<string>)
    ensures |r| == |parts|
    ensures forall k :: 0 <= k < |parts| ==> r[k] == Trim(parts[k])
  {
    seq(|parts|, k requires 0 <= k < |parts| => Trim(parts[k]))
  }

  /**
   * An address that PHP considers empty ("" or "0") gives "N/A"; otherwise
   * the address is exploded on ',', every part trimmed, and the
   * second-to-last part returned, or the only part when there is one.
   * Whatever comes back carries no comma and no trimmable character at
   * either end.
   */
  function ExtractLocation(address: string): (r: string)
    ensures IsEmpty(address) ==> r == NotAvailable
    ensures !IsEmpty(address) ==> ',' !in r
    ensures !IsEmpty(address) && r != [] ==> !IsTrimmable(r[0]) && !IsTrimmable(r[|r| - 1])
  {
    if IsEmpty(address) then NotAvailable
    else
      var parts := TrimAll(Explode(',', address));
      if |parts| >= 2 then parts[|parts| - 2] else parts[0]
  }

  /** An address without a comma gives the address itself, trimmed. */
  lemma {:induction false} ExtractLocationOfSinglePart(address: string)
    requires !IsEmpty(address) && ',' !in address
    ensures ExtractLocation(address) == Trim(address)
  {
    ExplodeWithoutSeparator(',', address);
  }

  /**
   * An address that ends in "…, part, last" (or is just "part, last"),
   * where neither `part` nor `last` holds a comma, gives `part`, trimmed,
   * whatever precedes it.
   */
  lemma {:induction false} ExtractLocationOfSecondToLast(head: string, part: string, last: string)
    requires ',' !in part && ',' !in last
    ensures ExtractLocation(part + "," + last) == Trim(part)
    ensures ExtractLocation(head + "," + part + "," + last) == Trim(part)
  {
    ExplodeTwoParts(part, last);
    ExtractLocationPicks(part + "," + last, [], part, last);
    ExplodeThreeParts(head, part, last);
    ExtractLocationPicks(head + "," + part + "," + last, Explode(',', head), part, last);
  }

  lemma {:induction false} ExplodeThreeParts(head: string, part: string, last: string)
    requires ',' !in part && ',' !in last
    ensures Explode(',', head + "," + part + "," + last) == Explode(',', head) + [part] + [last]
  {
    var short := part + "," + last;
    assert head + "," + part + "," + last == head + [','] + short;
    ExplodeTwoParts(part, last);
    assert Explode(',', short) == [part, last];
    ExplodeAtSeparator(',', head, short);
    assert Explode(',', head) + [part, last] == Explode(',', head) + [part] + [last];
  }

  lemma {:induction false} ExplodeTwoParts(part: string, last: string)
    requires ',' !in part && ',' !in last
    ensures Explode(',', part + "," + last) == [] + [part] + [last]
  {
    assert part + "," + last == part + [','] + last;
    ExplodeWithoutSeparator(',', part);
    ExplodeWithoutSeparator(',', last);
    ExplodeAtSeparator(',', part, last);
  }

  lemma {:induction false} ExtractLocationPicks(address: string, front: seq<string>, part: string, last: string)
    requires Explode(',', address) == front + [part] + [last]
    ensures ExtractLocation(address) == Trim(part)
  {
    var parts := Explode(',', address);
    assert parts[|parts| - 2] == part;
    assert !IsEmpty(address) by {
      if IsEmpty(address) {
        ExplodeWithoutSeparator(',', address);
      }
    }
  }

  /** A PHP-empty address, "0" included, gives "N/A". */
  lemma {:induction false} ExtractLocationOfEmpty()
    ensures ExtractLocation("") == NotAvailable && ExtractLocation("0") == NotAvailable
  {
  }
}
