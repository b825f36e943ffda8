/** The plugin's data type registry and the scopes and runtime permissions an authorisation request
    needs (src/android/HealthPlugin.java:66-100, 303-321, 417-430, 860-874). */
module Registry {
  import opened Wrappers

  /** The Google Fit data types the plugin maps names to; the last two are the custom types the
      plugin creates once authorised. */
  datatype FitType =
    | StepCountDelta | CaloriesExpended | BasalMetabolicRate | ActivitySegment
    | Height | Weight | HeartRateBpm | BodyFatPercentage
    | DistanceDelta
    | CustomGender | CustomDateOfBirth

  const ACTIVITY_TYPES: map<string, FitType> :=
    map["steps" := StepCountDelta, "calories" := CaloriesExpended,
        "calories.basal" := BasalMetabolicRate, "activity" := ActivitySegment]

  const BODY_TYPES: map<string, FitType> :=
    map["height" := Height, "weight" := Weight, "heart_rate" := HeartRateBpm,
        "fat_percentage" := BodyFatPercentage]

  const LOCATION_TYPES: map<string, FitType> := map["distance" := DistanceDelta]

  /** No nutrition type is registered. */
  const NUTRITION_TYPES: map<string, FitType> := map[]

  /** `map.get(name)`, with None for Java's null. */
  function Find(m: map<string, FitType>, name: string): Option<FitType> {
    if name in m then Some(m[name]) else None
  }

  /** The later hit when there is one, the earlier one otherwise. */
  function Prefer(later: Option<FitType>, earlier: Option<FitType>): Option<FitType> {
    if later.Some? then later else earlier
  }

  /** A name resolves in the last map that has it, in the order body, activity, location, nutrition,
      custom; so custom types win over every built-in one. */
  function Lookup(custom: map<string, FitType>, name: string): Option<FitType> {
    Prefer(Find(custom, name),
      Prefer(Find(NUTRITION_TYPES, name),
        Prefer(Find(LOCATION_TYPES, name),
          Prefer(Find(ACTIVITY_TYPES, name), Find(BODY_TYPES, name)))))
  }

  /** The chain of `if (xdatatypes.get(datatype) != null) dt = xdatatypes.get(datatype);` in `query`
      and `store`: each later hit overwrites the earlier one. */
  method FindType(custom: map<string, FitType>, name: string) returns (dt: Option<FitType>)
    ensures dt == Lookup(custom, name)
  {
    dt := None;
    if Find(BODY_TYPES, name).Some? {
      dt := Find(BODY_TYPES, name);
    }
    if Find(ACTIVITY_TYPES, name).Some? {
      dt := Find(ACTIVITY_TYPES, name);
    }
    if Find(LOCATION_TYPES, name).Some? {
      dt := Find(LOCATION_TYPES, name);
    }
    if Find(NUTRITION_TYPES, name).Some? {
      dt := Find(NUTRITION_TYPES, name);
    }
    if Find(custom, name).Some? {
      dt := Find(custom, name);
    }
  }

  /** Custom types take priority over every built-in one. */
  lemma CustomWins(custom: map<string, FitType>, name: string)
    requires name in custom
    ensures Lookup(custom, name) == Some(custom[name])
  {
  }

  /** A name is unsupported exactly when no map has it. */
  lemma LookupNoneIff(custom: map<string, FitType>, name: string)
    ensures Lookup(custom, name).None? <==>
      name !in custom && name !in BODY_TYPES && name !in ACTIVITY_TYPES && name !in LOCATION_TYPES
      && name !in NUTRITION_TYPES
  {
  }

  /** The built-in maps share no name, so without a custom override a built-in name resolves to its
      own map's type whatever the priority order. */
  lemma BuiltinLookup(custom: map<string, FitType>, name: string)
    requires name !in custom
    ensures name in BODY_TYPES ==> Lookup(custom, name) == Some(BODY_TYPES[name])
    ensures name in ACTIVITY_TYPES ==> Lookup(custom, name) == Some(ACTIVITY_TYPES[name])
    ensures name in LOCATION_TYPES ==> Lookup(custom, name) == Some(LOCATION_TYPES[name])
  {
  }

  function UnsupportedMessage(name: string): string {
    "Datatype " + name + " not supported"
  }

  /** The four scope flags of `requestAuthorization`. */
  datatype Scopes = Scopes(body: bool, activity: bool, location: bool, nutrition: bool)

  const ACCESS_FINE_LOCATION: string := "android.permission.ACCESS_FINE_LOCATION"
  const BODY_SENSORS: string := "android.permission.BODY_SENSORS"

  /** Some requested type is in map m. */
  predicate Mentions(types: seq<string>, m: map<string, FitType>) {
    exists i :: 0 <= i < |types| && types[i] in m
  }

  /** A scope is needed exactly when some requested type belongs to it (custom types need none). */
  function ScopesFor(types: seq<string>): Scopes {
    Scopes(Mentions(types, BODY_TYPES), Mentions(types, ACTIVITY_TYPES), Mentions(types, LOCATION_TYPES),
           Mentions(types, NUTRITION_TYPES))
  }

  /** The loop over the requested types that raises the scope flags. */
  method DeriveScopes(types: seq<string>) returns (s: Scopes)
    ensures s == ScopesFor(types)
  {
    var body, activity, location, nutrition := false, false, false, false;
    var i := 0;
    while i < |types|
      invariant 0 <= i <= |types|
      invariant body <==> Mentions(types[..i], BODY_TYPES)
      invariant activity <==> Mentions(types[..i], ACTIVITY_TYPES)
      invariant location <==> Mentions(types[..i], LOCATION_TYPES)
      invariant nutrition <==> Mentions(types[..i], NUTRITION_TYPES)
    {
      var t := types[i];
      assert types[..i + 1] == types[..i] + [t];
      if t in BODY_TYPES {
        body := true;
      }
      if t in ACTIVITY_TYPES {
        activity := true;
      }
      if t in LOCATION_TYPES {
        location := true;
      }
      if t in NUTRITION_TYPES {
        nutrition := true;
      }
      i := i + 1;
    }
    assert types[..i] == types;
    s := Scopes(body, activity, location, nutrition);
  }

  /** `dynPerms`: fine location for the location scope, then body sensors for the body scope. */
  function DynamicPermissions(s: Scopes): seq<string> {
    (if s.location then [ACCESS_FINE_LOCATION] else []) + (if s.body then [BODY_SENSORS] else [])
  }

  /** The runtime permissions asked for: location exactly when "distance" is requested, body sensors
      exactly when a body type is, no permission twice, location first. */
  lemma PermissionsFor(types: seq<string>)
    ensures ACCESS_FINE_LOCATION in DynamicPermissions(ScopesFor(types)) <==> "distance" in types
    ensures BODY_SENSORS in DynamicPermissions(ScopesFor(types)) <==>
      exists i :: 0 <= i < |types| && types[i] in {"height", "weight", "heart_rate", "fat_percentage"}
    ensures |DynamicPermissions(ScopesFor(types))| <= 2
    ensures |DynamicPermissions(ScopesFor(types))| == 2 ==>
      DynamicPermissions(ScopesFor(types)) == [ACCESS_FINE_LOCATION, BODY_SENSORS]
  {
    if "distance" in types {
      var i :| 0 <= i < |types| && types[i] == "distance";
      assert types[i] in LOCATION_TYPES;
    }
  }
}
