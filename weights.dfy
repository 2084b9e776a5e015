/** The weight configuration and its file (agents.py, "WEIGHTS"): loading
    with per-key defaults, saving, and the bounded multiplicative drift. */
module Weights {
  import opened Numeric

  /** A decoded JSON object of numbers. */
  type Dict = map<string, real>

  /** The files the store can see: a path that is absent is one whose
      opening raises `FileNotFoundError`. */
  type Files = map<string, Dict>

  const AlphaText: string := "alpha_text"
  const BetaImage: string := "beta_image"
  const MoneyCoef: string := "money_coef"

  /** `DEFAULT_WEIGHTS.items()`, in the dictionary's order. */
  const DefaultItems: seq<(string, real)> := [(AlphaText, 0.6), (BetaImage, 0.4), (MoneyCoef, 0.12)]

  /** `DEFAULT_WEIGHTS` as a dictionary. */
  const DefaultWeights: Dict := map[AlphaText := 0.6, BetaImage := 0.4, MoneyCoef := 0.12]

  /** `w.setdefault(k, v)` on the dictionary's value. */
  function SetDefault(w: Dict, k: string, v: real): Dict {
    if k in w then w else w[k := v]
  }

  /** The `setdefault` loop over `items`, in order. */
  function FillDefaults(w: Dict, items: seq<(string, real)>): Dict
    decreases |items|
  {
    if items == [] then w
    else FillDefaults(SetDefault(w, items[0].0, items[0].1), items[1..])
  }

  /** The three keys the drift and the pipeline look up. */
  predicate HasWeights(w: Dict) {
    AlphaText in w && BetaImage in w && MoneyCoef in w
  }

  /** The ranges the drift keeps every weight in. */
  predicate InRange(w: Dict) {
    && HasWeights(w)
    && 0.2 <= w[AlphaText] <= 0.8
    && 0.2 <= w[BetaImage] <= 0.8
    && 0.05 <= w[MoneyCoef] <= 0.5
  }

  /** In range, with the image weight the rounded complement of the text
      weight: the shape every drift leaves. */
  predicate Balanced(w: Dict) {
    InRange(w) && w[BetaImage] == Round2(1.0 - w[AlphaText])
  }

  /** Filling the defaults adds exactly the default keys that are absent and
      keeps every present key, extra keys included, as it is. */
  lemma FillDefaultsIsUnion(w: Dict)
    ensures FillDefaults(w, DefaultItems) == DefaultWeights + w
    ensures HasWeights(FillDefaults(w, DefaultItems))
  {
    var w1 := SetDefault(w, AlphaText, 0.6);
    var w2 := SetDefault(w1, BetaImage, 0.4);
    var w3 := SetDefault(w2, MoneyCoef, 0.12);
    var rest1, rest2 := DefaultItems[1..], DefaultItems[2..];
    assert rest1[1..] == rest2 && rest2 == [(MoneyCoef, 0.12)] && rest2[1..] == [];
    assert FillDefaults(w2, rest2) == w3;
    assert FillDefaults(w1, rest1) == w3;
    assert FillDefaults(w, DefaultItems) == w3;
    assert w3 == DefaultWeights + w;
  }

  /** What `load_weights(path)` returns, and the files afterwards. */
  datatype Loaded = Loaded(weights: Dict, files: Files)

  /** `load_weights`: the stored dictionary, or the defaults written to a
      missing file, then completed key by key from the defaults. */
  function Load(files: Files, path: string): Loaded {
    if path in files then Loaded(FillDefaults(files[path], DefaultItems), files)
    else Loaded(FillDefaults(DefaultWeights, DefaultItems), files[path := DefaultWeights])
  }

  /** On a missing file the defaults are written and returned. */
  lemma LoadMissing(files: Files, path: string)
    requires path !in files
    ensures Load(files, path) == Loaded(DefaultWeights, files[path := DefaultWeights])
  {
    FillDefaultsIsUnion(DefaultWeights);
    assert DefaultWeights + DefaultWeights == DefaultWeights;
  }

  /** On an existing file the stored dictionary is returned with only the
      absent default keys added, and the file is not rewritten. */
  lemma LoadExisting(files: Files, path: string)
    requires path in files
    ensures Load(files, path).files == files
    ensures Load(files, path).weights.Keys == files[path].Keys + DefaultWeights.Keys
    ensures forall k :: k in files[path] ==> Load(files, path).weights[k] == files[path][k]
    ensures forall k :: k in DefaultWeights && k !in files[path] ==>
              Load(files, path).weights[k] == DefaultWeights[k]
  {
    FillDefaultsIsUnion(files[path]);
  }

  /** Every load yields the three weights, and leaves a file at `path`. */
  lemma LoadHasWeights(files: Files, path: string)
    ensures HasWeights(Load(files, path).weights)
    ensures path in Load(files, path).files
  {
    if path in files {
      FillDefaultsIsUnion(files[path]);
    } else {
      LoadMissing(files, path);
    }
  }

  /** Two loads with no write between return the same dictionary, and the
      second changes no file. */
  lemma LoadIdempotent(files: Files, path: string)
    ensures Load(Load(files, path).files, path).weights == Load(files, path).weights
    ensures Load(Load(files, path).files, path).files == Load(files, path).files
  {
    if path !in files {
      LoadMissing(files, path);
    }
  }

  /** `save_weights`: the whole dictionary replaces the file at `path`. */
  function Save(files: Files, w: Dict, path: string): Files {
    files[path := w]
  }

  /** The three assignments of `auto_update`, in order: text weight up 2%,
      image weight the rounded complement, money coefficient up 1%, each
      clamped. */
  function Drift(w: Dict): Dict
    requires HasWeights(w)
  {
    var alpha := Clamp(0.2, 0.8, w[AlphaText] * 1.02);
    var w1 := w[AlphaText := alpha];
    var beta := Round2(Clamp(0.2, 0.8, 1.0 - w1[AlphaText]));
    var w2 := w1[BetaImage := beta];
    var money := Clamp(0.05, 0.5, w2[MoneyCoef] * 1.01);
    w2[MoneyCoef := money]
  }

  /** After a drift every weight is in its range, whatever it was before; the
      image weight is the complement of the text weight rounded to hundredths;
      and no other key changes. */
  lemma DriftInRange(w: Dict)
    requires HasWeights(w)
    ensures Balanced(Drift(w))
    ensures Drift(w).Keys == w.Keys
    ensures forall k :: k in w && k != AlphaText && k != BetaImage && k != MoneyCoef ==>
              Drift(w)[k] == w[k]
  {
    var alpha := Drift(w)[AlphaText];
    Round2KeepsRange(1.0 - alpha);
  }

  /** From in-range weights the drift never lowers the text weight or the
      money coefficient. */
  lemma DriftMonotone(w: Dict)
    requires InRange(w)
    ensures Drift(w)[AlphaText] >= w[AlphaText]
    ensures Drift(w)[MoneyCoef] >= w[MoneyCoef]
  {
  }

  /** Decimal digits of a natural number. */
  function Decimal(n: nat): (s: string)
    ensures |s| >= 1
    ensures forall i :: 0 <= i < |s| ==> '0' <= s[i] <= '9'
  {
    var d := ['0' + (n % 10) as char];
    if n < 10 then d else Decimal(n / 10) + d
  }

  /** `f"v{int(clock)}"`. */
  function VersionTag(clock: real): string {
    var secs := Trunc(clock);
    "v" + (if secs < 0 then "-" + Decimal(-secs) else Decimal(secs))
  }

  /** What `auto_update` returns. */
  datatype UpdateInfo = UpdateInfo(version: string, weights: Dict)

  /** What `auto_update(path)` returns, and the files afterwards. */
  datatype Updated = Updated(info: UpdateInfo, files: Files)

  /** `auto_update`: load, drift, save, and tag with the clock's second. */
  function AutoUpdated(files: Files, path: string, clock: real): Updated {
    var loaded := Load(files, path);
    LoadHasWeights(files, path);
    var w := Drift(loaded.weights);
    Updated(UpdateInfo(VersionTag(clock), w), Save(loaded.files, w, path))
  }

  /** The persisted dictionary is the returned one, no other file changes,
      and the weights are in range with the image weight the rounded
      complement of the text weight. */
  lemma AutoUpdatePersists(files: Files, path: string, clock: real)
    ensures AutoUpdated(files, path, clock).files == files[path := AutoUpdated(files, path, clock).info.weights]
    ensures Balanced(AutoUpdated(files, path, clock).info.weights)
  {
    LoadHasWeights(files, path);
    DriftInRange(Load(files, path).weights);
  }

  /** One `auto_update` from in-range stored weights keeps them in range and
      does not lower the text weight or the money coefficient. */
  lemma UpdateStep(files: Files, path: string, clock: real)
    requires path in files && InRange(files[path])
    ensures path in AutoUpdated(files, path, clock).files
    ensures InRange(AutoUpdated(files, path, clock).files[path])
    ensures AutoUpdated(files, path, clock).files[path][AlphaText] >= files[path][AlphaText]
    ensures AutoUpdated(files, path, clock).files[path][MoneyCoef] >= files[path][MoneyCoef]
  {
    AutoUpdatePersists(files, path, clock);
    var loaded := Load(files, path).weights;
    LoadExisting(files, path);
    assert loaded[AlphaText] == files[path][AlphaText];
    assert loaded[MoneyCoef] == files[path][MoneyCoef];
    DriftMonotone(loaded);
  }

  /** The file after `k` successive `auto_update` calls on `path`. */
  function UpdatedTimes(files: Files, path: string, clock: real, k: nat): Files {
    if k == 0 then files else AutoUpdated(UpdatedTimes(files, path, clock, k - 1), path, clock).files
  }

  /** Repeated updates stay in range and never lower the text weight or the
      money coefficient once the file holds in-range weights. */
  lemma {:induction false} RepeatedUpdates(files: Files, path: string, clock: real, k: nat)
    requires path in files && InRange(files[path])
    ensures path in UpdatedTimes(files, path, clock, k)
    ensures InRange(UpdatedTimes(files, path, clock, k)[path])
    ensures UpdatedTimes(files, path, clock, k)[path][AlphaText] >= files[path][AlphaText]
    ensures UpdatedTimes(files, path, clock, k)[path][MoneyCoef] >= files[path][MoneyCoef]
  {
    if k > 0 {
      RepeatedUpdates(files, path, clock, k - 1);
      UpdateStep(UpdatedTimes(files, path, clock, k - 1), path, clock);
    }
  }

  /** The weight file store: the only state `load_weights`, `save_weights`
      and `auto_update` touch. */
  class WeightStore {
    var files: Files

    constructor (initial: Files)
      ensures files == initial
    {
      files := initial;
    }

    /** `save_weights(w, path)`. */
    method SaveWeights(w: Dict, path: string)
      modifies this
      ensures files == Save(old(files), w, path)
    {
      files := files[path := w];
    }

    /** `load_weights(path)`, with the `setdefault` loop. */
    method LoadWeights(path: string) returns (w: Dict)
      modifies this
      ensures Loaded(w, files) == Load(old(files), path)
    {
      var stored: Dict;
      if path in files {
        stored := files[path];
      } else {
        stored := DefaultWeights;
        SaveWeights(stored, path);
      }
      w := stored;
      var i := 0;
      while i < |DefaultItems|
        invariant 0 <= i <= |DefaultItems|
        invariant FillDefaults(w, DefaultItems[i..]) == FillDefaults(stored, DefaultItems)
      {
        var (k, v) := DefaultItems[i];
        assert DefaultItems[i..][1..] == DefaultItems[i + 1..];
        if k !in w {
          w := w[k := v];
        }
        i := i + 1;
      }
    }

    /** `auto_update(path)`: the keys are overwritten one after the other and
        the result is saved before it is returned. */
    method AutoUpdate(path: string, clock: real) returns (info: UpdateInfo)
      modifies this
      ensures Updated(info, files) == AutoUpdated(old(files), path, clock)
    {
      LoadHasWeights(files, path);
      var w := LoadWeights(path);
      w := w[AlphaText := Clamp(0.2, 0.8, w[AlphaText] * 1.02)];
      w := w[BetaImage := Round2(Clamp(0.2, 0.8, 1.0 - w[AlphaText]))];
      w := w[MoneyCoef := Clamp(0.05, 0.5, w[MoneyCoef] * 1.01)];
      SaveWeights(w, path);
      info := UpdateInfo(VersionTag(clock), w);
    }
  }
}
