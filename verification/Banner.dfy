// The connection banner: get_connection_string and parse_banner (porting/adb/client/adb.cpp) with the feature
// lists of porting/adb/transport.cpp.
module Banner {
  // ----- android::base::Split and Join at one separator -----

  function Split(s: string, d: char): (pieces: seq<string>)
    ensures pieces != []
  {
    if s == "" then [""]
    else
      var rest := Split(s[1..], d);
      if s[0] == d then [""] + rest else [[s[0]] + rest[0]] + rest[1..]
  }

  function Join(xs: seq<string>, d: char): string {
    if xs == [] then "" else if |xs| == 1 then xs[0] else xs[0] + [d] + Join(xs[1..], d)
  }

  predicate AllWithout(xs: seq<string>, d: char) {
    forall i :: 0 <= i < |xs| ==> d !in xs[i]
  }

  lemma {:induction false} SplitWhole(s: string, d: char)
    requires d !in s
    ensures Split(s, d) == [s]
  {
    if s != "" {
      SplitWhole(s[1..], d);
      assert s == [s[0]] + s[1..];
    }
  }

  // The first separator ends the first piece.
  lemma {:induction false} SplitFirst(a: string, b: string, d: char)
    requires d !in a
    ensures Split(a + [d] + b, d) == [a] + Split(b, d)
  {
    var s := a + [d] + b;
    if a == "" {
      assert s[1..] == b;
    } else {
      assert s[1..] == a[1..] + [d] + b && s[0] == a[0];
      SplitFirst(a[1..], b, d);
      assert a == [a[0]] + a[1..];
    }
  }

  lemma {:induction false} SplitConcat(a: string, b: string, d: char)
    ensures Split(a + [d] + b, d) == Split(a, d) + Split(b, d)
  {
    var s := a + [d] + b;
    if a == "" {
      assert s[1..] == b;
    } else {
      assert s[1..] == a[1..] + [d] + b && s[0] == a[0];
      SplitConcat(a[1..], b, d);
      PiecesConcat(Split(a[1..], d), Split(b, d), a[0]);
    }
  }

  lemma PiecesConcat(xs: seq<string>, ys: seq<string>, c: char)
    requires xs != []
    ensures [[c] + (xs + ys)[0]] + (xs + ys)[1..] == [[c] + xs[0]] + xs[1..] + ys
    ensures [""] + (xs + ys) == [""] + xs + ys
  {
  }

  // A separator in the first part ends the first piece there.
  lemma {:induction false} SplitHead(a: string, b: string, d: char)
    requires d in a
    ensures Split(a + b, d)[0] == Split(a, d)[0] && |Split(a + b, d)| > 1
  {
    var s := a + b;
    assert s[1..] == a[1..] + b && s[0] == a[0];
    if a[0] != d { SplitHead(a[1..], b, d); }
  }

  lemma {:induction false} SplitOfJoin(xs: seq<string>, d: char)
    requires xs != [] && AllWithout(xs, d)
    ensures Split(Join(xs, d), d) == xs
  {
    if |xs| == 1 {
      SplitWhole(xs[0], d);
    } else {
      SplitOfJoin(xs[1..], d);
      SplitFirst(xs[0], Join(xs[1..], d), d);
    }
  }

  // Conversely joining undoes splitting, so every string is a join of its pieces.
  lemma {:induction false} JoinOfSplit(s: string, d: char)
    ensures Join(Split(s, d), d) == s
  {
    if s != "" {
      JoinOfSplit(s[1..], d);
      var rest := Split(s[1..], d);
      if s[0] == d {
        assert ([""] + rest)[1..] == rest;
        assert Join([""] + rest, d) == "" + [d] + Join(rest, d);
      } else {
        JoinHead(s[0], rest, d);
      }
    }
  }

  lemma JoinHead(c: char, xs: seq<string>, d: char)
    requires xs != []
    ensures Join([[c] + xs[0]] + xs[1..], d) == [c] + Join(xs, d)
  {
    var ys := [[c] + xs[0]] + xs[1..];
    if |xs| > 1 {
      assert ys[1..] == xs[1..];
      assert [c] + xs[0] + [d] + Join(xs[1..], d) == [c] + (xs[0] + [d] + Join(xs[1..], d));
    }
  }

  // Pieces hold no separator and no other characters than the string.
  lemma {:induction false} PiecesOf(s: string, d: char)
    ensures AllWithout(Split(s, d), d)
    ensures forall c: char :: c !in s ==> AllWithout(Split(s, d), c)
  {
    if s != "" {
      PiecesOf(s[1..], d);
      forall c: char | c !in s ensures AllWithout(Split(s, d), c) {
        assert c !in s[1..] && c != s[0];
      }
    }
  }

  lemma {:induction false} JoinWithout(xs: seq<string>, d: char, c: char)
    requires AllWithout(xs, c) && c != d
    ensures c !in Join(xs, d)
  {
    if |xs| > 1 { JoinWithout(xs[1..], d, c); }
  }

  // ----- Feature lists -----

  function FeatureSetToString(fs: seq<string>): string {
    Join(fs, ',')
  }

  function StringToFeatureSet(s: string): seq<string> {
    if s == "" then [] else Split(s, ',')
  }

  // A string that survives all three layers.
  predicate Clean(s: string) {
    ':' !in s && ';' !in s && '=' !in s
  }

  predicate CleanNames(fs: seq<string>) {
    forall i :: 0 <= i < |fs| ==> Clean(fs[i]) && ',' !in fs[i]
  }

  // The one list that is written like the empty one is the list of an empty name.
  lemma FeaturesRoundTrip(fs: seq<string>)
    requires AllWithout(fs, ',')
    ensures StringToFeatureSet(FeatureSetToString(fs)) == fs <==> fs != [""]
  {
    if fs != [] && fs != [""] {
      SplitOfJoin(fs, ',');
      if |fs| > 1 { assert ',' in FeatureSetToString(fs); }
    }
  }

  // ----- The banner -----

  datatype ConnectionState = Bootloader | Device | Recovery | Sideload | Rescue | Host

  datatype Info = Info(product: string, model: string, device: string, features: seq<string>, delayedAck: bool,
                       state: ConnectionState)

  // The properties that only a device announces.
  datatype Product = Product(name: string, model: string, device: string)
  datatype Announced = FromHost | FromDevice(product: Product)

  const PRODUCT_NAME := "ro.product.name"
  const PRODUCT_MODEL := "ro.product.model"
  const PRODUCT_DEVICE := "ro.product.device"
  const FEATURES := "features"
  const DELAYED_ACK := "delayed_ack"

  function Property(key: string, value: string): string {
    key + "=" + value
  }

  function Properties(who: Announced, fs: seq<string>): seq<string> {
    (match who
     case FromHost => []
     case FromDevice(p) =>
       [Property(PRODUCT_NAME, p.name), Property(PRODUCT_MODEL, p.model), Property(PRODUCT_DEVICE, p.device)])
    + [Property(FEATURES, FeatureSetToString(fs))]
  }

  // get_connection_string
  function ConnectionString(kind: string, who: Announced, fs: seq<string>): string {
    kind + ":" + "" + ":" + Join(Properties(who, fs), ';')
  }

  function StateOf(kind: string): ConnectionState {
    if kind == "bootloader" then Bootloader
    else if kind == "device" then Device
    else if kind == "recovery" then Recovery
    else if kind == "sideload" then Sideload
    else if kind == "rescue" then Rescue
    else Host
  }

  // atransport::SetFeatures; `supported` is what this side supports.
  function SetFeatures(t: Info, value: string, supported: seq<string>): Info {
    var fs := StringToFeatureSet(value);
    t.(features := fs, delayedAck := DELAYED_ACK in fs && DELAYED_ACK in supported)
  }

  // One property of the banner.
  function Apply(t: Info, prop: string, supported: seq<string>): Info {
    var kv := Split(prop, '=');
    if prop == "" || |kv| != 2 then t
    else if kv[0] == PRODUCT_NAME then t.(product := kv[1])
    else if kv[0] == PRODUCT_MODEL then t.(model := kv[1])
    else if kv[0] == PRODUCT_DEVICE then t.(device := kv[1])
    else if kv[0] == FEATURES then SetFeatures(t, kv[1], supported)
    else t
  }

  function ApplyAll(t: Info, props: seq<string>, supported: seq<string>): Info {
    if props == [] then t
    else Apply(ApplyAll(t, props[..|props| - 1], supported), props[|props| - 1], supported)
  }

  function Parsed(t: Info, banner: string, supported: seq<string>): Info {
    var pieces := Split(banner, ':');
    var cleared := SetFeatures(t, "", supported);
    var all := if |pieces| > 2 then ApplyAll(cleared, Split(pieces[2], ';'), supported) else cleared;
    all.(state := StateOf(pieces[0]))
  }

  // ----- Any banner -----

  lemma NeverOneEmptyName(s: string)
    ensures StringToFeatureSet(s) != [""]
  {
    if s != "" {
      PiecesOf(s, ',');
      if s[0] != ',' { assert Split(s, ',')[0] != ""; }
    }
  }

  // What every feature list that was read from a banner satisfies.
  ghost predicate Readable(t: Info, supported: seq<string>) {
    && CleanNames(t.features) && t.features != [""]
    && t.delayedAck == ("delayed_ack" in t.features && "delayed_ack" in supported)
  }

  lemma ApplyReads(t: Info, prop: string, supported: seq<string>)
    requires Readable(t, supported) && ':' !in prop && ';' !in prop
    ensures Readable(Apply(t, prop, supported), supported)
  {
    var kv := Split(prop, '=');
    PiecesOf(prop, '=');
    if |kv| == 2 {
      assert Clean(kv[1]);
      PiecesOf(kv[1], ',');
      NeverOneEmptyName(kv[1]);
    }
  }

  lemma {:induction false} ApplyAllReads(t: Info, props: seq<string>, supported: seq<string>)
    requires Readable(t, supported) && AllWithout(props, ':') && AllWithout(props, ';')
    ensures Readable(ApplyAll(t, props, supported), supported)
  {
    if props != [] {
      ApplyAllReads(t, props[..|props| - 1], supported);
      ApplyReads(ApplyAll(t, props[..|props| - 1], supported), props[|props| - 1], supported);
    }
  }

  // Whatever the banner: names hold no separator, the list is not the one of an empty name, and delayed
  // acknowledgements are used exactly when both sides name them.
  lemma FeaturesAreReadable(t: Info, banner: string, supported: seq<string>)
    ensures Readable(Parsed(t, banner, supported), supported)
  {
    var pieces := Split(banner, ':');
    PiecesOf(banner, ':');
    if |pieces| > 2 {
      PiecesOf(pieces[2], ';');
      ApplyAllReads(SetFeatures(t, "", supported), Split(pieces[2], ';'), supported);
    }
  }

  // Nothing of the features that were known before survives.
  lemma StaleFeaturesAreCleared(t: Info, u: Info, banner: string, supported: seq<string>)
    ensures Parsed(t, banner, supported).features == Parsed(u, banner, supported).features
    ensures Parsed(t, banner, supported).delayedAck == Parsed(u, banner, supported).delayedAck
  {
    var pieces := Split(banner, ':');
    if |pieces| > 2 {
      SameFeatures(SetFeatures(t, "", supported), SetFeatures(u, "", supported), Split(pieces[2], ';'), supported);
    }
  }

  lemma {:induction false} SameFeatures(t: Info, u: Info, props: seq<string>, supported: seq<string>)
    requires t.features == u.features && t.delayedAck == u.delayedAck
    ensures ApplyAll(t, props, supported).features == ApplyAll(u, props, supported).features
    ensures ApplyAll(t, props, supported).delayedAck == ApplyAll(u, props, supported).delayedAck
  {
    if props != [] { SameFeatures(t, u, props[..|props| - 1], supported); }
  }

  // ----- What the properties of a banner mean -----

  // A property gives a key a value if it is the key, one '=', and the value.
  ghost predicate Says(prop: string, key: string, value: string) {
    prop == key + "=" + value && '=' !in value
  }

  ghost predicate Silent(prop: string, key: string) {
    forall value :: !Says(prop, key, value)
  }

  // The last property that gives the key a value gives it this one, or none does and it keeps the old one.
  ghost predicate Ends(props: seq<string>, key: string, before: string, value: string) {
    || (exists i :: SaysLast(props, i, key, value))
    || (value == before && forall i :: 0 <= i < |props| ==> Silent(props[i], key))
  }

  ghost predicate SaysLast(props: seq<string>, i: int, key: string, value: string) {
    && 0 <= i < |props| && Says(props[i], key, value)
    && forall j :: i < j < |props| ==> Silent(props[j], key)
  }

  // What a key stands for.
  ghost predicate Holds(t: Info, key: string, value: string) {
    && (key == "ro.product.name" ==> t.product == value)
    && (key == "ro.product.model" ==> t.model == value)
    && (key == "ro.product.device" ==> t.device == value)
    && (key == "features" ==> t.features == if value == "" then [] else Split(value, ','))
  }

  predicate IsKey(key: string) {
    key == "ro.product.name" || key == "ro.product.model" || key == "ro.product.device" || key == "features"
  }

  lemma SaysIsSplit(prop: string, key: string, value: string)
    requires '=' !in key
    ensures Says(prop, key, value) <==> Split(prop, '=') == [key, value]
  {
    if Says(prop, key, value) {
      assert prop == key + ['='] + value;
      SplitFirst(key, value, '=');
      SplitWhole(value, '=');
    }
    if Split(prop, '=') == [key, value] {
      PiecesOf(prop, '=');
      JoinOfSplit(prop, '=');
      assert '=' !in [key, value][1] && [key, value][1..] == [value];
      assert prop == key + ['='] + value;
    }
  }

  lemma IsKeyMeans(key: string)
    requires IsKey(key)
    ensures '=' !in key
    ensures key == PRODUCT_NAME || key == PRODUCT_MODEL || key == PRODUCT_DEVICE || key == FEATURES
  {
  }

  lemma ApplySays(t: Info, prop: string, key: string, value: string, supported: seq<string>)
    requires IsKey(key) && Says(prop, key, value)
    ensures Holds(Apply(t, prop, supported), key, value)
  {
    Keys();
    IsKeyMeans(key);
    SaysIsSplit(prop, key, value);
  }

  lemma ApplySilent(t: Info, prop: string, key: string, value: string, supported: seq<string>)
    requires IsKey(key) && Silent(prop, key) && Holds(t, key, value)
    ensures Holds(Apply(t, prop, supported), key, value)
  {
    Keys();
    IsKeyMeans(key);
    var kv := Split(prop, '=');
    if |kv| == 2 && kv[0] == key {
      assert kv == [key, kv[1]];
      SaysIsSplit(prop, key, kv[1]);
      assert false;
    }
  }

  lemma {:induction false} ApplyAllMeans(t: Info, props: seq<string>, key: string, before: string, value: string,
                                         supported: seq<string>)
    requires IsKey(key) && Holds(t, key, before) && Ends(props, key, before, value)
    ensures Holds(ApplyAll(t, props, supported), key, value)
  {
    if props != [] {
      var k := |props| - 1;
      var (init, last) := (props[..k], props[k]);
      if Says(last, key, value) {
        ApplySays(ApplyAll(t, init, supported), last, key, value, supported);
      } else {
        NotTheLast(props, key, before, value);
        ApplyAllMeans(t, init, key, before, value, supported);
        ApplySilent(ApplyAll(t, init, supported), last, key, value, supported);
      }
    }
  }

  lemma NotTheLast(props: seq<string>, key: string, before: string, value: string)
    requires props != [] && Ends(props, key, before, value) && !Says(props[|props| - 1], key, value)
    ensures Silent(props[|props| - 1], key) && Ends(props[..|props| - 1], key, before, value)
  {
    var k := |props| - 1;
    var init := props[..k];
    if i :| SaysLast(props, i, key, value) {
      assert i < k;
      forall j | i < j < k ensures Silent(init[j], key) { assert init[j] == props[j]; }
      assert SaysLast(init, i, key, value);
    } else {
      forall j | 0 <= j < k ensures Silent(init[j], key) { assert init[j] == props[j]; }
    }
  }

  // Any banner is some pieces between colons; the third one is some properties between semicolons.
  ghost predicate Consists(banner: string, pieces: seq<string>, props: seq<string>) {
    && pieces != [] && AllWithout(pieces, ':') && banner == Join(pieces, ':')
    && (if |pieces| > 2 then props != [] && AllWithout(props, ';') && pieces[2] == Join(props, ';') else props == [])
  }

  lemma BannerConsists(banner: string) returns (pieces: seq<string>, props: seq<string>)
    ensures Consists(banner, pieces, props)
  {
    pieces := Split(banner, ':');
    PiecesOf(banner, ':');
    JoinOfSplit(banner, ':');
    props := [];
    if |pieces| > 2 {
      props := Split(pieces[2], ';');
      PiecesOf(pieces[2], ';');
      JoinOfSplit(pieces[2], ';');
    }
  }

  // For each key the last property that gives it a value counts.  If there is none, a product text stays as it
  // was and the features are gone.
  lemma LastPropertyCounts(t: Info, banner: string, pieces: seq<string>, props: seq<string>, key: string,
                           value: string, supported: seq<string>)
    requires Consists(banner, pieces, props) && IsKey(key)
    requires key == "ro.product.name" ==> Ends(props, key, t.product, value)
    requires key == "ro.product.model" ==> Ends(props, key, t.model, value)
    requires key == "ro.product.device" ==> Ends(props, key, t.device, value)
    requires key == "features" ==> Ends(props, key, "", value)
    ensures Holds(Parsed(t, banner, supported), key, value)
  {
    var cleared := SetFeatures(t, "", supported);
    SplitOfJoin(pieces, ':');
    Keys();
    var before := if key == FEATURES then "" else if key == PRODUCT_NAME then t.product
                  else if key == PRODUCT_MODEL then t.model else t.device;
    IsKeyMeans(key);
    assert Holds(cleared, key, before);
    if |pieces| > 2 {
      SplitOfJoin(props, ';');
      ApplyAllMeans(cleared, props, key, before, value, supported);
    }
  }

  // The first piece names the state; every other name is a host.
  function Kind(state: ConnectionState): string {
    match state
    case Bootloader => "bootloader"
    case Device => "device"
    case Recovery => "recovery"
    case Sideload => "sideload"
    case Rescue => "rescue"
    case Host => "host"
  }

  lemma StateIsNamed(t: Info, banner: string, pieces: seq<string>, props: seq<string>, supported: seq<string>)
    requires Consists(banner, pieces, props)
    ensures
      var state := Parsed(t, banner, supported).state;
      if state == Host then forall other :: pieces[0] == Kind(other) ==> other == Host else pieces[0] == Kind(state)
  {
    SplitOfJoin(pieces, ':');
    assert StateOf(pieces[0]) != Host ==> pieces[0] == Kind(StateOf(pieces[0]));
    forall other | pieces[0] == Kind(other) ensures StateOf(pieces[0]) == other { KindIsRead(other); }
  }

  lemma KindIsRead(state: ConnectionState)
    ensures StateOf(Kind(state)) == state
  {
    var (a, b, c, d, e) := ("bootloader", "device", "recovery", "sideload", "rescue");
    assert |a| == 10 && |b| == 6 && |c| == 8 && |d| == 8 && |e| == 6;
    assert b[0] == 'd' && e[0] == 'r' && c[0] == 'r' && d[0] == 's';
    match state
    case Rescue =>
    case Sideload =>
    case Host => assert |"host"| == 4;
    case _ =>
  }

  // ----- The banner of the other side -----

  lemma Keys()
    ensures Clean(PRODUCT_NAME) && Clean(PRODUCT_MODEL) && Clean(PRODUCT_DEVICE) && Clean(FEATURES)
    ensures |PRODUCT_NAME| < |PRODUCT_MODEL| < |PRODUCT_DEVICE| && |FEATURES| < |PRODUCT_NAME|
  {
  }

  lemma PropertyIsSplit(key: string, value: string)
    requires Clean(key) && Clean(value)
    ensures Split(Property(key, value), '=') == [key, value]
    ensures ':' !in Property(key, value) && ';' !in Property(key, value)
  {
    assert Property(key, value) == key + ['='] + value;
    SplitFirst(key, value, '=');
    SplitWhole(value, '=');
  }

  predicate CleanProduct(who: Announced) {
    who.FromDevice? ==> Clean(who.product.name) && Clean(who.product.model) && Clean(who.product.device)
  }

  lemma FeatureStringIsClean(fs: seq<string>)
    requires CleanNames(fs)
    ensures Clean(FeatureSetToString(fs))
  {
    JoinWithout(fs, ',', ':');
    JoinWithout(fs, ',', ';');
    JoinWithout(fs, ',', '=');
  }

  lemma PropertiesAreSplit(who: Announced, fs: seq<string>)
    requires CleanProduct(who) && CleanNames(fs)
    ensures Split(Join(Properties(who, fs), ';'), ';') == Properties(who, fs)
    ensures ':' !in Join(Properties(who, fs), ';')
  {
    Keys();
    FeatureStringIsClean(fs);
    PropertyIsSplit(FEATURES, FeatureSetToString(fs));
    if who.FromDevice? {
      PropertyIsSplit(PRODUCT_NAME, who.product.name);
      PropertyIsSplit(PRODUCT_MODEL, who.product.model);
      PropertyIsSplit(PRODUCT_DEVICE, who.product.device);
    }
    SplitOfJoin(Properties(who, fs), ';');
    JoinWithout(Properties(who, fs), ';', ':');
  }

  lemma ApplyProduct(t: Info, p: Product, supported: seq<string>)
    requires CleanProduct(FromDevice(p))
    ensures ApplyAll(t, Properties(FromDevice(p), [])[..3], supported) ==
            t.(product := p.name, model := p.model, device := p.device)
  {
    Keys();
    var xs := Properties(FromDevice(p), [])[..3];
    PropertyIsSplit(PRODUCT_NAME, p.name);
    PropertyIsSplit(PRODUCT_MODEL, p.model);
    PropertyIsSplit(PRODUCT_DEVICE, p.device);
    assert xs[..2][..1] == xs[..1] && xs[..1][..0] == [];
    assert ApplyAll(t, xs[..1], supported) == t.(product := p.name);
    assert ApplyAll(t, xs[..2], supported) == t.(product := p.name, model := p.model);
  }

  // What parsing the other side's banner comes to.
  function Restored(t: Info, kind: string, who: Announced, fs: seq<string>, supported: seq<string>): Info {
    var u := if who.FromHost? then t
             else t.(product := who.product.name, model := who.product.model, device := who.product.device);
    SetFeatures(u, FeatureSetToString(fs), supported).(state := StateOf(kind))
  }

  lemma BannerIsRestored(t: Info, kind: string, who: Announced, fs: seq<string>, supported: seq<string>)
    requires ':' !in kind && CleanProduct(who) && CleanNames(fs)
    ensures Parsed(t, ConnectionString(kind, who, fs), supported) == Restored(t, kind, who, fs, supported)
  {
    var props := Properties(who, fs);
    var text := Join(props, ';');
    PropertiesAreSplit(who, fs);
    ThreePieces(kind, text);
    var cleared := SetFeatures(t, "", supported);
    var k := |props| - 1;
    Keys();
    FeatureStringIsClean(fs);
    PropertyIsSplit(FEATURES, FeatureSetToString(fs));
    if who.FromDevice? {
      ApplyProduct(cleared, who.product, supported);
      assert props[..k] == Properties(who, [])[..3];
    } else {
      assert props[..k] == [] && ApplyAll(cleared, [], supported) == cleared;
    }
    assert ApplyAll(cleared, props, supported) == Apply(ApplyAll(cleared, props[..k], supported), props[k], supported);
  }

  lemma ThreePieces(kind: string, text: string)
    requires ':' !in kind && ':' !in text
    ensures Split(kind + ":" + "" + ":" + text, ':') == [kind, "", text]
  {
    assert kind + ":" + "" + ":" + text == kind + [':'] + ("" + [':'] + text);
    SplitFirst(kind, "" + [':'] + text, ':');
    SplitFirst("", text, ':');
    SplitWhole(text, ':');
  }

  lemma KindIsFirst(kind: string, text: string)
    requires ':' !in kind
    ensures Split(kind + ":" + "" + ":" + text, ':') == [kind, ""] + Split(text, ':')
  {
    assert kind + ":" + "" + ":" + text == kind + [':'] + ("" + [':'] + text);
    SplitFirst(kind, "" + [':'] + text, ':');
    SplitFirst("", text, ':');
  }

  predicate NoColon(who: Announced) {
    who.FromDevice? ==> ':' !in who.product.name && ':' !in who.product.model && ':' !in who.product.device
  }

  // The properties before the features.
  function Described(p: Product): seq<string> {
    Properties(FromDevice(p), [])[..3]
  }

  lemma TextOfDevice(p: Product, fs: seq<string>)
    ensures Join(Properties(FromDevice(p), fs), ';') ==
            Join(Described(p), ';') + [';'] + Property(FEATURES, FeatureSetToString(fs))
  {
    var (a, b, c, f) := (Described(p)[0], Described(p)[1], Described(p)[2],
                         Property(FEATURES, FeatureSetToString(fs)));
    assert Properties(FromDevice(p), fs) == [a, b, c, f] && Described(p) == [a, b, c];
    JoinLast([a, b, c], f);
    assert [a, b, c] + [f] == [a, b, c, f];
  }

  lemma {:induction false} JoinLast(xs: seq<string>, x: string)
    requires xs != []
    ensures Join(xs + [x], ';') == Join(xs, ';') + [';'] + x
  {
    if |xs| > 1 {
      assert (xs + [x])[1..] == xs[1..] + [x];
      JoinLast(xs[1..], x);
      assert xs[0] + [';'] + (Join(xs[1..], ';') + [';'] + x) == xs[0] + [';'] + Join(xs[1..], ';') + [';'] + x;
    } else {
      assert (xs + [x])[1..] == [x] && xs == [xs[0]];
    }
  }

  lemma DescribedHasColon(p: Product)
    ensures ':' in Join(Described(p), ';') <==> !NoColon(FromDevice(p))
  {
    var (a, b, c) := (Described(p)[0], Described(p)[1], Described(p)[2]);
    Keys();
    ColonInProperty(PRODUCT_NAME, p.name);
    ColonInProperty(PRODUCT_MODEL, p.model);
    ColonInProperty(PRODUCT_DEVICE, p.device);
    assert Described(p) == [a, b, c];
    JoinOfThree(a, b, c);
  }

  lemma JoinOfThree(a: string, b: string, c: string)
    ensures Join([a, b, c], ';') == a + [';'] + (b + [';'] + c)
  {
    assert [a, b, c][1..] == [b, c] && [b, c][1..] == [c];
    assert Join([b, c], ';') == b + [';'] + Join([c], ';');
    assert Join([c], ';') == c;
  }

  lemma ColonInProperty(key: string, value: string)
    requires Clean(key)
    ensures ':' in Property(key, value) <==> ':' in value
  {
  }

  lemma LastApplied(t: Info, xs: seq<string>, fs: seq<string>, supported: seq<string>)
    requires CleanNames(fs)
    ensures
      var r := ApplyAll(t, xs + [Property(FEATURES, FeatureSetToString(fs))], supported);
      r.features == StringToFeatureSet(FeatureSetToString(fs))
  {
    var f := Property(FEATURES, FeatureSetToString(fs));
    Keys();
    FeatureStringIsClean(fs);
    PropertyIsSplit(FEATURES, FeatureSetToString(fs));
    assert (xs + [f])[..|xs|] == xs;
  }

  // The last property wins, whatever the ones before it hold.
  lemma FeaturesAreLast(t: Info, kind: string, who: Announced, fs: seq<string>, supported: seq<string>)
    requires ':' !in kind && NoColon(who) && CleanNames(fs)
    ensures Parsed(t, ConnectionString(kind, who, fs), supported).features ==
            StringToFeatureSet(FeatureSetToString(fs))
  {
    var f := Property(FEATURES, FeatureSetToString(fs));
    var text := Join(Properties(who, fs), ';');
    var cleared := SetFeatures(t, "", supported);
    Keys();
    FeatureStringIsClean(fs);
    PropertyIsSplit(FEATURES, FeatureSetToString(fs));
    SplitWhole(f, ';');
    match who
    case FromHost =>
      assert text == f;
      ThreePieces(kind, text);
      assert [] + [f] == [f];
      LastApplied(cleared, [], fs, supported);
    case FromDevice(p) =>
      TextOfDevice(p, fs);
      DescribedHasColon(p);
      ThreePieces(kind, text);
      SplitConcat(Join(Described(p), ';'), f, ';');
      LastApplied(cleared, Split(Join(Described(p), ';'), ';'), fs, supported);
  }

  // ----- What a colon in the product does -----

  // The parser stops at the colon, so it never comes to the features: the result does not depend on them.
  lemma ColonHidesFeatures(t: Info, kind: string, who: Announced, fs: seq<string>, gs: seq<string>,
                           supported: seq<string>)
    requires ':' !in kind && !NoColon(who)
    ensures Parsed(t, ConnectionString(kind, who, fs), supported) ==
            Parsed(t, ConnectionString(kind, who, gs), supported)
  {
    ColonEndsText(kind, who.product, fs);
    ColonEndsText(kind, who.product, gs);
  }

  lemma ColonEndsText(kind: string, p: Product, fs: seq<string>)
    requires ':' !in kind && !NoColon(FromDevice(p))
    ensures
      var pieces := Split(ConnectionString(kind, FromDevice(p), fs), ':');
      |pieces| > 2 && pieces[0] == kind && pieces[2] == Split(Join(Described(p), ';'), ':')[0]
  {
    var text := Join(Properties(FromDevice(p), fs), ';');
    KindIsFirst(kind, text);
    ColonInText(p, fs);
    assert Split(ConnectionString(kind, FromDevice(p), fs), ':') == [kind, ""] + Split(text, ':');
  }

  lemma ColonInText(p: Product, fs: seq<string>)
    requires !NoColon(FromDevice(p))
    ensures Split(Join(Properties(FromDevice(p), fs), ';'), ':')[0] == Split(Join(Described(p), ';'), ':')[0]
  {
    TextOfDevice(p, fs);
    DescribedHasColon(p);
    HeadOfText(Join(Described(p), ';'), Property(FEATURES, FeatureSetToString(fs)));
  }

  lemma HeadOfText(d: string, f: string)
    requires ':' in d
    ensures Split(d + [';'] + f, ':')[0] == Split(d, ':')[0]
  {
    SplitHead(d, [';'] + f, ':');
    assert d + [';'] + f == d + ([';'] + f);
  }

  // A device whose name begins with a colon loses its features, whatever they are.
  lemma ColonWitness(t: Info, kind: string, p: Product, fs: seq<string>, supported: seq<string>)
    requires ':' !in kind && p.name != "" && p.name[0] == ':'
    ensures Parsed(t, ConnectionString(kind, FromDevice(p), fs), supported).features == []
  {
    ColonEndsText(kind, p, fs);
    NameEndsText(p);
    NameAlone(SetFeatures(t, "", supported), supported);
  }

  lemma NameEndsText(p: Product)
    requires p.name != "" && p.name[0] == ':'
    ensures Split(Join(Described(p), ';'), ':')[0] == Property(PRODUCT_NAME, "")
  {
    var (head, b, c) := (Property(PRODUCT_NAME, ""), Described(p)[1], Described(p)[2]);
    Keys();
    ColonInProperty(PRODUCT_NAME, "");
    assert Described(p) == [Property(PRODUCT_NAME, p.name), b, c];
    JoinOfThree(Property(PRODUCT_NAME, p.name), b, c);
    var rest := p.name[1..] + [';'] + (b + [';'] + c);
    assert p.name == [':'] + p.name[1..];
    assert Join(Described(p), ';') == head + [':'] + rest;
    SplitFirst(head, rest, ':');
  }

  lemma NameAlone(t: Info, supported: seq<string>)
    ensures ApplyAll(t, Split(Property(PRODUCT_NAME, ""), ';'), supported).features == t.features
  {
    var head := Property(PRODUCT_NAME, "");
    Keys();
    PropertyIsSplit(PRODUCT_NAME, "");
    SplitWhole(head, ';');
    assert [head][..0] == [];
    assert ApplyAll(t, [head], supported) == Apply(t, head, supported);
  }

  // ----- Main results -----

  // The features of the other side come back exactly when no name holds a separator and the list is not the
  // one of an empty name, whatever else the other side announces, short of a colon.  The state is the one of
  // the banner's type.
  lemma BannerRoundTrip(t: Info, kind: string, who: Announced, fs: seq<string>, supported: seq<string>)
    requires ':' !in kind
    ensures
      var r := Parsed(t, ConnectionString(kind, who, fs), supported);
      && (NoColon(who) ==> (r.features == fs <==> CleanNames(fs) && fs != [""]))
      && r.state == StateOf(kind)
  {
    FeaturesAreReadable(t, ConnectionString(kind, who, fs), supported);
    if NoColon(who) && CleanNames(fs) {
      FeaturesAreLast(t, kind, who, fs, supported);
      FeaturesRoundTrip(fs);
    }
    KindIsFirst(kind, Join(Properties(who, fs), ';'));
  }

  // Every list that can be restored is restored if and only if the product holds no colon.
  lemma FeaturesNeedNoColon(t: Info, kind: string, who: Announced, supported: seq<string>)
    requires ':' !in kind
    ensures NoColon(who) <==>
            forall fs :: CleanNames(fs) && fs != [""] ==>
                           Parsed(t, ConnectionString(kind, who, fs), supported).features == fs
  {
    if NoColon(who) {
      forall fs | CleanNames(fs) && fs != [""]
        ensures Parsed(t, ConnectionString(kind, who, fs), supported).features == fs
      {
        BannerRoundTrip(t, kind, who, fs, supported);
      }
    } else {
      ColonHidesFeatures(t, kind, who, ["a"], ["b"], supported);
      assert CleanNames(["a"]) && CleanNames(["b"]) && ["a"] != ["b"];
    }
  }

  // The product comes back exactly when none of its texts holds a separator, provided that the texts known
  // before hold none, as those read from a banner do.
  lemma ProductRoundTrip(t: Info, kind: string, p: Product, fs: seq<string>, supported: seq<string>)
    requires ':' !in kind && CleanNames(fs) && CleanTexts(t)
    ensures
      var r := Parsed(t, ConnectionString(kind, FromDevice(p), fs), supported);
      CleanTexts(r) && (Product(r.product, r.model, r.device) == p <==> CleanProduct(FromDevice(p)))
  {
    TextsStayClean(t, ConnectionString(kind, FromDevice(p), fs), supported);
    if CleanProduct(FromDevice(p)) {
      BannerIsRestored(t, kind, FromDevice(p), fs, supported);
    }
  }

  predicate CleanTexts(t: Info) {
    Clean(t.product) && Clean(t.model) && Clean(t.device)
  }

  lemma TextsStayClean(t: Info, banner: string, supported: seq<string>)
    requires CleanTexts(t)
    ensures CleanTexts(Parsed(t, banner, supported))
  {
    var pieces := Split(banner, ':');
    PiecesOf(banner, ':');
    if |pieces| > 2 {
      PiecesOf(pieces[2], ';');
      AllTextsStayClean(SetFeatures(t, "", supported), Split(pieces[2], ';'), supported);
    }
  }

  lemma {:induction false} AllTextsStayClean(t: Info, props: seq<string>, supported: seq<string>)
    requires CleanTexts(t) && AllWithout(props, ':') && AllWithout(props, ';')
    ensures CleanTexts(ApplyAll(t, props, supported))
  {
    if props != [] {
      AllTextsStayClean(t, props[..|props| - 1], supported);
      PiecesOf(props[|props| - 1], '=');
    }
  }

  // ----- The transport -----

  class Transport {
    var product: string
    var model: string
    var device: string
    var features: seq<string>
    var delayedAck: bool
    var state: ConnectionState

    ghost function View(): Info
      reads this
    {
      Info(product, model, device, features, delayedAck, state)
    }

    method UseFeatures(value: string, supported: seq<string>)
      modifies this`features, this`delayedAck
      ensures View() == SetFeatures(old(View()), value, supported)
    {
      features := StringToFeatureSet(value);
      delayedAck := DELAYED_ACK in features && DELAYED_ACK in supported;
    }

    method TakeProperty(prop: string, supported: seq<string>)
      modifies this
      ensures View() == Apply(old(View()), prop, supported)
    {
      if prop == "" {
        return;
      }
      var kv := Split(prop, '=');
      if |kv| != 2 {
        return;
      }
      if kv[0] == PRODUCT_NAME {
        product := kv[1];
      } else if kv[0] == PRODUCT_MODEL {
        model := kv[1];
      } else if kv[0] == PRODUCT_DEVICE {
        device := kv[1];
      } else if kv[0] == FEATURES {
        UseFeatures(kv[1], supported);
      }
    }

    // parse_banner
    method ParseBanner(banner: string, supported: seq<string>)
      modifies this
      ensures View() == Parsed(old(View()), banner, supported)
    {
      var pieces := Split(banner, ':');
      UseFeatures("", supported);
      if |pieces| > 2 {
        ghost var cleared := View();
        var props := Split(pieces[2], ';');
        for i := 0 to |props|
          invariant View() == ApplyAll(cleared, props[..i], supported)
        {
          assert props[..i + 1][..i] == props[..i];
          TakeProperty(props[i], supported);
        }
        assert props[..|props|] == props;
      }
      state := StateOf(pieces[0]);
    }
  }

  lemma KeyTexts()
    ensures PRODUCT_NAME + "=" == "ro.product.name=" && PRODUCT_MODEL + "=" == "ro.product.model="
    ensures PRODUCT_DEVICE + "=" == "ro.product.device=" && FEATURES + "=" == "features="
  {
  }

  lemma DescribedText(p: Product)
    ensures Join(Described(p), ';') ==
            "ro.product.name=" + p.name + ";" + "ro.product.model=" + p.model + ";" + "ro.product.device=" + p.device
  {
    KeyTexts();
    var (a, b, c) := (Described(p)[0], Described(p)[1], Described(p)[2]);
    assert Described(p) == [a, b, c];
    JoinOfThree(a, b, c);
    assert a == "ro.product.name=" + p.name && b == "ro.product.model=" + p.model && c == "ro.product.device=" + p.device;
    assert a + ";" + (b + ";" + c) == a + ";" + b + ";" + c;
    assert a + ";" + b == a + ";" + "ro.product.model=" + p.model;
    assert a + ";" + b + ";" + c == a + ";" + b + ";" + "ro.product.device=" + p.device;
  }

  lemma BannerText(kind: string, who: Announced, fs: seq<string>)
    ensures who.FromHost? ==> ConnectionString(kind, who, fs) == kind + "::" + ("features=" + Join(fs, ','))
    ensures who.FromDevice? ==>
      var p := who.product;
      var head := "ro.product.name=" + p.name + ";" + "ro.product.model=" + p.model + ";" + "ro.product.device=" + p.device;
      ConnectionString(kind, who, fs) == kind + "::" + (head + ";" + ("features=" + Join(fs, ',')))
  {
    KeyTexts();
    assert kind + ":" + "" + ":" == kind + "::";
    match who
    case FromHost =>
      assert Properties(who, fs) == [Property(FEATURES, FeatureSetToString(fs))];
    case FromDevice(p) =>
      TextOfDevice(p, fs);
      DescribedText(p);
  }

  // get_connection_string
  method GetConnectionString(kind: string, who: Announced, fs: seq<string>) returns (banner: string)
    ensures banner == ConnectionString(kind, who, fs)
    ensures who.FromHost? ==> banner == kind + "::" + ("features=" + Join(fs, ','))
    ensures who.FromDevice? ==>
      var p := who.product;
      var head := "ro.product.name=" + p.name + ";" + "ro.product.model=" + p.model + ";" + "ro.product.device=" + p.device;
      banner == kind + "::" + (head + ";" + ("features=" + Join(fs, ',')))
  {
    var props: seq<string> := [];
    if who.FromDevice? {
      var names := [PRODUCT_NAME, PRODUCT_MODEL, PRODUCT_DEVICE];
      var values := [who.product.name, who.product.model, who.product.device];
      for i := 0 to 3
        invariant |names| == |values| == 3
        invariant |props| == i && forall j :: 0 <= j < i ==> props[j] == Property(names[j], values[j])
      {
        props := props + [Property(names[i], values[i])];
      }
    }
    props := props + [Property(FEATURES, FeatureSetToString(fs))];
    assert props == Properties(who, fs);
    BannerText(kind, who, fs);
    return kind + ":" + "" + ":" + Join(props, ';');
  }
}
