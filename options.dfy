/** Option handling shared by both plugin constructors: the element's data
    attributes are copied into `dataOptions`, then defaults, data attributes and
    caller-supplied options are merged with `$.extend`, later sources winning. */
module Options {

  /** A JavaScript option value, as `.data()` or a caller's object literal holds it. */
  datatype Value = Undefined | Text(s: string) | Number(n: real) | Flag(b: bool) | Element(id: nat)

  /** The constructor's `for (i in setData)` loop. Its type-name guard is always
      truthy (`typeof` of a comparison is the non-empty string "boolean"), so every
      data attribute is copied, known option or not. */
  method CopyDataOptions(setData: map<string, Value>) returns (dataOptions: map<string, Value>)
    ensures dataOptions.Keys == setData.Keys
    ensures forall k :: k in dataOptions ==> dataOptions[k] == setData[k]
  {
    dataOptions := map[];
    var pending := setData.Keys;
    while pending != {}
      invariant pending <= setData.Keys
      invariant dataOptions.Keys == setData.Keys - pending
      invariant forall k :: k in dataOptions ==> dataOptions[k] == setData[k]
      decreases pending
    {
      var k :| k in pending;
      dataOptions := dataOptions[k := setData[k]];
      pending := pending - {k};
    }
  }

  /** `$.extend(target, source)`: every key of `source` whose value is not
      undefined overwrites the target's entry. */
  function Extend(target: map<string, Value>, source: map<string, Value>): map<string, Value>
  {
    map k | k in target.Keys + source.Keys && (k in target || source[k] != Undefined)
      :: if k in source && source[k] != Undefined then source[k] else target[k]
  }

  /** The key is present in `m` with a value other than undefined. */
  predicate Defines(m: map<string, Value>, k: string) {
    k in m && m[k] != Undefined
  }

  /** `$.extend({}, defaults, dataOptions, options)`. */
  function Merge(defaults: map<string, Value>, data: map<string, Value>, explicit: map<string, Value>): map<string, Value>
  {
    Extend(Extend(Extend(map[], defaults), data), explicit)
  }

  /** Precedence defaults < data attributes < explicit options: each key takes
      its value from the last source that defines it, and a key no source defines
      is absent. */
  lemma MergePrecedence(defaults: map<string, Value>, data: map<string, Value>, explicit: map<string, Value>, k: string)
    ensures k in Merge(defaults, data, explicit) <==> Defines(defaults, k) || Defines(data, k) || Defines(explicit, k)
    ensures Defines(explicit, k) ==> Merge(defaults, data, explicit)[k] == explicit[k]
    ensures !Defines(explicit, k) && Defines(data, k) ==> Merge(defaults, data, explicit)[k] == data[k]
    ensures !Defines(explicit, k) && !Defines(data, k) && Defines(defaults, k) ==> Merge(defaults, data, explicit)[k] == defaults[k]
  {
    var m0 := Extend(map[], defaults);
    var m1 := Extend(m0, data);
    assert k in m0 <==> Defines(defaults, k);
    assert k in m1 <==> k in m0 || Defines(data, k);
  }

  /** With no data attributes and no explicit options, the merged options are
      the defaults (the plugins' defaults define every key). */
  lemma MergeOfDefaultsOnly(defaults: map<string, Value>)
    requires forall k :: k in defaults ==> defaults[k] != Undefined
    ensures Merge(defaults, map[], map[]) == defaults
  {
    var m := Merge(defaults, map[], map[]);
    forall k | k in m ensures k in defaults && m[k] == defaults[k] {
      MergePrecedence(defaults, map[], map[], k);
    }
    forall k | k in defaults ensures k in m {
      MergePrecedence(defaults, map[], map[], k);
    }
  }
}
