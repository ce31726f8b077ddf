/**
 * The country-code picker (src/components/auth/CountryCodeSelector.jsx):
 * turning directory entries into select options, dropping repeated dial
 * codes, and choosing the option shown for the current value. The lookup
 * itself (fetch, abort, debounce) is not modelled; its response is a
 * parameter.
 */
module CountryCodeSelector {
  import opened Wrappers
  import opened JsString
  import opened Seqs

  datatype Flags = Flags(svg: Option<string>, png: Option<string>)

  /** `idd.suffixes` as the directory may send it. */
  datatype Suffixes = Missing | Items(list: seq<string>) | NotAnArray

  /** One directory entry; every field may be absent. */
  datatype Country = Country(commonName: Option<string>, root: Option<string>, suffixes: Suffixes, flags: Option<Flags>)

  datatype Meta = Meta(flag: string, name: string, dial: string)

  datatype SelectOption = SelectOption(labelText: string, value: string, meta: Option<Meta>)

  /** `country?.name?.common ?? 'Unknown'`. */
  function NameOf(c: Country): string {
    if c.commonName.Some? then c.commonName.value else "Unknown"
  }

  /** `country?.idd?.root ?? ''`. */
  function RootOf(c: Country): string {
    if c.root.Some? then c.root.value else ""
  }

  /** `flags?.svg || flags?.png || ''`. */
  function FlagOf(c: Country): string {
    if c.flags.Some? && c.flags.value.svg.Some? && c.flags.value.svg.value != "" then c.flags.value.svg.value
    else if c.flags.Some? && c.flags.value.png.Some? && c.flags.value.png.value != "" then c.flags.value.png.value
    else ""
  }

  /** The root and the suffixes give at least one dial code. */
  predicate HasDialCodes(c: Country) {
    RootOf(c) != "" && c.suffixes.Items? && |c.suffixes.list| > 0
  }

  /** `countryToOptions`: one option per suffix, in suffix order, or none. */
  function CountryToOptions(c: Country): (r: seq<SelectOption>)
    ensures !HasDialCodes(c) ==> r == []
    ensures HasDialCodes(c) ==> |r| == |c.suffixes.list|
    ensures HasDialCodes(c) ==> forall i :: 0 <= i < |r| ==>
      && r[i].value == RootOf(c) + c.suffixes.list[i]
      && r[i].labelText == NameOf(c) + " (" + r[i].value + ")"
      && r[i].meta == Some(Meta(FlagOf(c), NameOf(c), r[i].value))
  {
    if !HasDialCodes(c) then []
    else
      var name, root, flag, sfx := NameOf(c), RootOf(c), FlagOf(c), c.suffixes.list;
      seq(|sfx|, i requires 0 <= i < |sfx| =>
        SelectOption(name + " (" + root + sfx[i] + ")", root + sfx[i], Some(Meta(flag, name, root + sfx[i]))))
  }

  /** `data.flatMap(countryToOptions)`. */
  function AllOptions(countries: seq<Country>): (r: seq<SelectOption>)
    ensures forall c, o | c in countries && o in CountryToOptions(c) :: o in r
  {
    if countries == [] then [] else CountryToOptions(countries[0]) + AllOptions(countries[1..])
  }

  /** The first option with the given value (`Array.prototype.find`). */
  function FirstWithValue(opts: seq<SelectOption>, value: string): (r: Option<SelectOption>)
    ensures r.Some? ==> r.value in opts && r.value.value == value
    ensures r.None? <==> forall o | o in opts :: o.value != value
    ensures r.Some? ==>
      exists k :: 0 <= k < |opts| && opts[k] == r.value && (forall j :: 0 <= j < k ==> opts[j].value != value)
  {
    if opts == [] then None
    else if opts[0].value == value then Some(opts[0])
    else
      var r := FirstWithValue(opts[1..], value);
      assert r.Some? ==> forall k :: 0 <= k < |opts| - 1 ==> opts[1..][k] == opts[k + 1];
      r
  }

  /**
   * The filter with a `seen` set: an option is kept when its value was not
   * seen before, and its value is then marked as seen.
   */
  function DedupeFrom(opts: seq<SelectOption>, seen: set<string>): seq<SelectOption> {
    if opts == [] then []
    else if opts[0].value in seen then DedupeFrom(opts[1..], seen)
    else [opts[0]] + DedupeFrom(opts[1..], seen + {opts[0].value})
  }

  /** The option values of a list are pairwise distinct. */
  ghost predicate DistinctValues(opts: seq<SelectOption>) {
    forall i, j :: 0 <= i < j < |opts| ==> opts[i].value != opts[j].value
  }

  /**
   * What the de-duplication keeps: unseen values only, pairwise distinct,
   * each the first option with that value, in input order; and it loses
   * no value.
   */
  lemma {:induction false} DedupeFacts(opts: seq<SelectOption>, seen: set<string>)
    ensures var r := DedupeFrom(opts, seen);
      && (forall o | o in r :: o.value !in seen && FirstWithValue(opts, o.value) == Some(o))
      && DistinctValues(r)
      && IsSubsequence(r, opts)
      && (forall o | o in opts :: o.value in seen || FirstWithValue(r, o.value).Some?)
  {
    if opts != [] {
      var h := opts[0];
      if h.value in seen {
        DedupeFacts(opts[1..], seen);
        var rest := DedupeFrom(opts[1..], seen);
        SubsequenceDropHead(rest, opts);
        forall o | o in rest ensures FirstWithValue(opts, o.value) == Some(o) {
          assert o.value != h.value;
        }
      } else {
        var seen' := seen + {h.value};
        DedupeFacts(opts[1..], seen');
        var rest := DedupeFrom(opts[1..], seen');
        var r := [h] + rest;
        assert r[1..] == rest;
        forall o | o in r ensures o.value !in seen && FirstWithValue(opts, o.value) == Some(o) {
          if o != h {
            assert o in rest;
          }
        }
        forall i, j | 0 <= i < j < |r| ensures r[i].value != r[j].value {
          assert r[j] == rest[j - 1] && r[j] in rest;
          if i > 0 {
            assert r[i] == rest[i - 1];
          }
        }
        forall o | o in opts ensures o.value in seen || FirstWithValue(r, o.value).Some? {
          if o.value !in seen && o.value != h.value {
            assert o in opts[1..];
            assert FirstWithValue(r, o.value) == FirstWithValue(rest, o.value);
          }
        }
      }
    }
  }

  /** The filter callback's loop, with `seen` as a mutable set. */
  method Deduplicate(opts: seq<SelectOption>) returns (kept: seq<SelectOption>)
    ensures kept == DedupeFrom(opts, {})
  {
    var seen: set<string> := {};
    kept := [];
    var i := 0;
    while i < |opts|
      invariant 0 <= i <= |opts|
      invariant kept + DedupeFrom(opts[i..], seen) == DedupeFrom(opts, {})
    {
      var o := opts[i];
      assert opts[i..][1..] == opts[i + 1..];
      if o.value !in seen {
        seen := seen + {o.value};
        kept := kept + [o];
      }
      i := i + 1;
    }
  }

  /**
   * `fetchCountries` once the request has settled: blank input gives no
   * options and no request; a failed or aborted request (`None`) gives none;
   * otherwise the options of all entries, first per dial code.
   */
  method FetchCountries(input: Option<string>, response: Option<seq<Country>>) returns (opts: seq<SelectOption>)
    ensures input.None? || AllWhitespace(input.value) ==> opts == []
    ensures response.None? ==> opts == []
    ensures input.Some? && !AllWhitespace(input.value) && response.Some? ==>
      opts == DedupeFrom(AllOptions(response.value), {})
    ensures DistinctValues(opts)
  {
    if input.None? || Trim(input.value) == "" {
      return [];
    }
    if response.None? {
      return [];
    }
    opts := Deduplicate(AllOptions(response.value));
    DedupeFacts(AllOptions(response.value), {});
  }

  /** `defaultCountries || [India, United States, United Kingdom]`. */
  function DefaultOptions(defaultCountries: Option<seq<SelectOption>>): seq<SelectOption> {
    if defaultCountries.Some? then defaultCountries.value
    else [ SelectOption("India (+91)", "+91", None),
           SelectOption("United States (+1)", "+1", None),
           SelectOption("United Kingdom (+44)", "+44", None) ]
  }

  /**
   * `valueOption`: nothing for a falsy value; otherwise the first default
   * option with that value, or a bare option labelled by the value.
   */
  function ValueOption(value: Option<string>, defaults: seq<SelectOption>): (r: Option<SelectOption>)
    ensures r.None? <==> value.None? || value.value == ""
    ensures r.Some? ==> r.value.value == value.value
    ensures r.Some? && FirstWithValue(defaults, value.value).Some? ==> r == FirstWithValue(defaults, value.value)
    ensures r.Some? && FirstWithValue(defaults, value.value).None? ==> r.value == SelectOption(value.value, value.value, None)
  {
    if value.None? || value.value == "" then None
    else
      var preset := FirstWithValue(defaults, value.value);
      if preset.Some? then preset else Some(SelectOption(value.value, value.value, None))
  }

  /** With no `defaultCountries`, the form's initial code '+91' shows as the India preset. */
  lemma InitialCodeShowsPreset()
    ensures ValueOption(Some("+91"), DefaultOptions(None)) == Some(SelectOption("India (+91)", "+91", None))
  {
  }

  /** A code outside the presets, or any code over an empty list, shows as a bare option. */
  lemma OtherCodeShowsBare()
    ensures ValueOption(Some("+33"), DefaultOptions(None)) == Some(SelectOption("+33", "+33", None))
    ensures ValueOption(Some("+91"), DefaultOptions(Some([]))) == Some(SelectOption("+91", "+91", None))
  {
  }
}
