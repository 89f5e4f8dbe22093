/**
 * The snapshot cache of snapshot.py: one JSON file per key holding the last
 * good tool result and the moment it was saved. The directory is a map from
 * key to what the file holds; the clock is an integer count of seconds
 * passed in by the caller.
 */
module Snapshots {
  import opened Wrappers
  import opened Text

  /** The fields of a snapshot file that are ever read back. */
  datatype Snapshot = Snapshot(data: string, savedAt: int)

  /**
   * What a snapshot file holds, as `load` meets it: a decodable snapshot;
   * text that is not JSON or a file that cannot be opened (the
   * `JSONDecodeError` and `IOError` that `load` catches); or bytes that are
   * not UTF-8, such as a write cut off inside a multi-byte character, whose
   * `UnicodeDecodeError` `load` does not catch.
   */
  datatype Stored = Record(snapshot: Snapshot) | Unreadable | Undecodable

  /**
   * What happens when `save` writes a file: the write completes; `open`
   * raises and the old file stays; or the write raises part-way and the
   * truncated file is left holding `partial`.
   */
  datatype Disk = Writes | OpenFails | WriteFails(partial: Stored)

  /** The directory after `save` put `s` under `key` with the given disk behaviour. */
  function SavedFiles(files: map<string, Stored>, key: string, s: Snapshot, disk: Disk): map<string, Stored> {
    match disk
    case Writes => files[key := Record(s)]
    case OpenFails => files
    case WriteFails(partial) => files[key := partial]
  }

  /** Python's `int(x / 60)` for a whole number of seconds: division truncated toward zero. */
  function Minutes(seconds: int): (m: int)
    ensures seconds >= 0 ==> m == seconds / 60
    ensures m < 1 <==> seconds < 60
  {
    if seconds >= 0 then seconds / 60 else -((-seconds) / 60)
  }

  /** The bucketing of `age_str` for a snapshot `seconds` old. */
  function AgeText(seconds: int): string {
    var minutes := Minutes(seconds);
    if minutes < 1 then "just now"
    else if minutes < 60 then NatToDecimal(minutes) + " min ago"
    else
      var hours := minutes / 60;
      if hours < 24 then NatToDecimal(hours) + "h ago"
      else NatToDecimal(hours / 24) + " days ago"
  }

  /**
   * The four buckets in terms of elapsed seconds: under a minute (a clock
   * that went backwards included), whole minutes under an hour, whole hours
   * under a day, whole days.
   */
  lemma AgeBuckets(seconds: int)
    ensures seconds < 60 ==> AgeText(seconds) == "just now"
    ensures 60 <= seconds < 3600 ==> AgeText(seconds) == NatToDecimal(seconds / 60) + " min ago"
    ensures 3600 <= seconds < 86400 ==> AgeText(seconds) == NatToDecimal(seconds / 3600) + "h ago"
    ensures 86400 <= seconds ==> AgeText(seconds) == NatToDecimal(seconds / 86400) + " days ago"
  {
    if seconds >= 3600 {
      HoursOfSeconds(seconds);
      if seconds >= 86400 {
        DaysOfSeconds(seconds);
      }
    }
  }

  lemma HoursOfSeconds(s: nat)
    ensures s / 60 / 60 == s / 3600
  {
    var m := s / 60;
    assert s == 60 * m + s % 60;
    assert m == 60 * (m / 60) + m % 60;
    assert s == 3600 * (m / 60) + (60 * (m % 60) + s % 60);
  }

  lemma DaysOfSeconds(s: nat)
    ensures s / 3600 / 24 == s / 86400
  {
    var h := s / 3600;
    assert s == 3600 * h + s % 3600;
    assert h == 24 * (h / 24) + h % 24;
    assert s == 86400 * (h / 24) + (3600 * (h % 24) + s % 3600);
  }

  /** An age is never the text `age_str` gives for a missing snapshot. */
  lemma AgeTextIsNotMissing(seconds: int)
    ensures AgeText(seconds) != "no cached data"
  {
    var t := AgeText(seconds);
    if t != "just now" {
      assert IsDigit(t[0]);
      assert !IsDigit("no cached data"[0]);
    }
  }

  /** An age fits on one line. */
  lemma AgeTextNoBreak(seconds: int)
    ensures '\n' !in AgeText(seconds)
  {
    var m := Minutes(seconds);
    if m >= 1 {
      if m < 60 {
        DigitsThen(m, " min ago");
      } else if m / 60 < 24 {
        DigitsThen(m / 60, "h ago");
      } else {
        DigitsThen(m / 60 / 24, " days ago");
      }
    }
  }

  lemma DigitsThen(n: nat, suffix: string)
    requires '\n' !in suffix
    ensures '\n' !in NatToDecimal(n) + suffix
  {
    var d := NatToDecimal(n);
    forall i | 0 <= i < |d + suffix| ensures (d + suffix)[i] != '\n' {
      if i < |d| {
        assert IsDigit(d[i]);
      } else {
        assert (d + suffix)[i] == suffix[i - |d|];
      }
    }
  }

  /** The snapshot directory. */
  class SnapshotStore {
    var files: map<string, Stored>

    /** The directory as found at start-up. */
    constructor(existing: map<string, Stored>)
      ensures files == existing
    {
      files := existing;
    }

    /**
     * `load`: `None` for a missing file or one that is not JSON or cannot be
     * opened; it raises for a file that is not UTF-8.
     */
    function Load(key: string): (r: Completion<Option<Snapshot>>)
      reads this
      ensures r == Returns(None) <==> key !in files || files[key].Unreadable?
      ensures r.Raises? <==> key in files && files[key].Undecodable?
      ensures r.Returns? && r.value.Some? ==> files[key] == Record(r.value.value)
    {
      if key !in files then Returns(None)
      else
        match files[key]
        case Record(snapshot) => Returns(Some(snapshot))
        case Unreadable => Returns(None)
        case Undecodable => Raises
    }

    /**
     * `save`, with `disk` saying how the write goes. It returns normally
     * exactly when the write completes; the file for `key` is then
     * overwritten, and `load` finds the new snapshot. No other file changes.
     */
    method Save(key: string, data: string, now: int, disk: Disk) returns (r: Completion<()>)
      modifies this
      ensures r.Returns? <==> disk.Writes?
      ensures files == SavedFiles(old(files), key, Snapshot(data, now), disk)
      ensures disk.Writes? ==> Load(key) == Returns(Some(Snapshot(data, now)))
      ensures forall k :: k != key ==> Load(k) == old(Load(k))
    {
      match disk {
        case Writes =>
          files := files[key := Record(Snapshot(data, now))];
          return Returns(());
        case OpenFails =>
          return Raises;
        case WriteFails(partial) =>
          files := files[key := partial];
          return Raises;
      }
    }

    /** `age_str` at time `now`; it raises when `load` does. */
    function AgeStr(key: string, now: int): (r: Completion<string>)
      reads this
      ensures r.Raises? <==> Load(key).Raises?
      ensures Load(key) == Returns(None) ==> r == Returns("no cached data")
      ensures Load(key).Returns? && Load(key).value.Some? ==> r == Returns(AgeText(now - Load(key).value.value.savedAt))
    {
      match Load(key)
      case Raises => Raises
      case Returns(None) => Returns("no cached data")
      case Returns(Some(s)) => Returns(AgeText(now - s.savedAt))
    }

    /** `age_str` reports a missing snapshot exactly when `load` finds none. */
    lemma AgeStrMissing(key: string, now: int)
      ensures AgeStr(key, now) == Returns("no cached data") <==> Load(key) == Returns(None)
    {
      if Load(key).Returns? && Load(key).value.Some? {
        AgeTextIsNotMissing(now - Load(key).value.value.savedAt);
      }
    }
  }
}
