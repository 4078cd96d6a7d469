/**
 * The statistics objects that feeds and folders carry in JSON: a JSON
 * object from statistic identifiers to string values, read and written
 * through a pair of inverse identifier tables.
 */
module StatisticObjects {
  import opened Wrappers
  import opened Json

  /** `names` and `identifiers` are the two identifier tables, each the inverse of the other. */
  predicate Inverse<S(==)>(names: map<S, string>, identifiers: map<string, S>)
  {
    && (forall s :: s in names ==> names[s] in identifiers && identifiers[names[s]] == s)
    && (forall k :: k in identifiers ==> identifiers[k] in names && names[identifiers[k]] == k)
  }

  /** Every known identifier in `o` holds a string; unknown keys are never read. */
  predicate Readable<S>(o: Object, identifiers: map<string, S>)
  {
    forall k :: k in o && k in identifiers ==> o[k].JString?
  }

  /** The statistics named in `o` by known identifiers. */
  function Decoded<S(==)>(o: Object, names: map<S, string>, identifiers: map<string, S>): map<S, string>
    requires Readable(o, identifiers)
  {
    map s | s in names && names[s] in o && names[s] in identifiers :: o[names[s]].s
  }

  /** The statistics object `toJSON` writes: one string entry per statistic, under its identifier. */
  function Encode<S(==)>(stats: map<S, string>, names: map<S, string>, identifiers: map<string, S>): Object
  {
    map k | k in identifiers && identifiers[k] in stats :: JString(stats[identifiers[k]])
  }

  /**
   * The loop over the statistics object's names in `fromJSON`: names
   * that are not identifiers are skipped; an identifier holding anything
   * but a string throws.
   */
  method Read<S(==)>(o: Object, names: map<S, string>, identifiers: map<string, S>) returns (r: Result<map<S, string>>)
    requires Inverse(names, identifiers)
    ensures r.Ok? <==> Readable(o, identifiers)
    ensures r.Ok? ==> r.value == Decoded(o, names, identifiers)
  {
    var stats: map<S, string> := map[];
    var rest := o.Keys;
    while rest != {}
      invariant rest <= o.Keys
      invariant forall k :: k in o.Keys - rest && k in identifiers ==> o[k].JString?
      invariant forall s :: s in stats <==> (s in names && names[s] in o.Keys - rest && names[s] in identifiers)
      invariant forall s :: s in stats ==> o[names[s]] == JString(stats[s])
      decreases rest
    {
      var key :| key in rest;
      if key in identifiers {
        var value := GetString(o, key);
        if value.Err? {
          return Err(value.error);
        }
        stats := stats[identifiers[key] := value.value];
      }
      rest := rest - {key};
    }
    return Ok(stats);
  }

  /** Reading back what `toJSON` writes gives the statistics, when every statistic has an identifier. */
  lemma DecodeEncoded<S>(stats: map<S, string>, names: map<S, string>, identifiers: map<string, S>)
    requires Inverse(names, identifiers) && stats.Keys <= names.Keys
    ensures Readable(Encode(stats, names, identifiers), identifiers)
    ensures Decoded(Encode(stats, names, identifiers), names, identifiers) == stats
  {
    var o := Encode(stats, names, identifiers);
    forall s | s in stats
      ensures names[s] in o && o[names[s]] == JString(stats[s])
    {
    }
  }

  /** Encoding writes an entry exactly when there is a statistic. */
  lemma EncodeEmpty<S>(stats: map<S, string>, names: map<S, string>, identifiers: map<string, S>)
    requires Inverse(names, identifiers) && stats.Keys <= names.Keys
    ensures |Encode(stats, names, identifiers)| == 0 <==> |stats| == 0
  {
    var o := Encode(stats, names, identifiers);
    if |stats| != 0 {
      var s :| s in stats;
      assert names[s] in o;
    }
  }

  /** Keys that are not identifiers do not change what is read. */
  lemma UnknownIgnored<S>(o: Object, names: map<S, string>, identifiers: map<string, S>, key: string, value: Json)
    requires Readable(o, identifiers) && key !in identifiers
    ensures Readable(o[key := value], identifiers)
    ensures Decoded(o[key := value], names, identifiers) == Decoded(o, names, identifiers)
  {
  }
}
