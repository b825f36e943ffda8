/** The workout activity names of the iOS wrapper (www/ios/health.js): the plugin's activity
    labels and HealthKit's workout activity type identifiers, mapped both ways by `switch`
    statements with defaults.

    Each table is split by the length of its key into one small function per length, in source
    order within a length. Each key appears once in the split tables: the later duplicate cases
    of `fromHKActivity`, which can never answer, are dropped (see `Shadowed`), so the split
    answers as the single `switch` does; it keeps the evaluation of one lookup to the keys of the
    right length. */
module IosActivity {
  /** HealthKit's catch-all workout type, the default of `toHKActivity`. */
  const OTHER_ID: string := "HKWorkoutActivityTypeOther"

  /** The default of `fromHKActivity`. */
  const OTHER_LABEL: string := "other"

  /** `toHKActivity(act)` (health.js:174-308): the listed identifier, otherwise HealthKit's "other"
      type. The identifier for "football.american" lacks its leading "H", as in the source. */
  function ToHK(act: string): (r: string)
    ensures act == OTHER_LABEL ==> r == OTHER_ID
  {
    match |act|
    case 4 => ToHKOfLength4(act)
    case 5 => ToHKOfLength5(act)
    case 6 => ToHKOfLength6(act)
    case 7 => ToHKOfLength7(act)
    case 8 => ToHKOfLength8(act)
    case 9 => ToHKOfLength9(act)
    case 10 => ToHKOfLength10(act)
    case 11 => ToHKOfLength11(act)
    case 12 => ToHKOfLength12(act)
    case 13 => ToHKOfLength13(act)
    case 14 => ToHKOfLength14(act)
    case 15 => ToHKOfLength15(act)
    case 16 => ToHKOfLength16(act)
    case 17 => ToHKOfLength17(act)
    case 18 => ToHKOfLength18(act)
    case 19 => ToHKOfLength19(act)
    case 20 => ToHKOfLength20(act)
    case 22 => ToHKOfLength22(act)
    case 24 => ToHKOfLength24(act)
    case 32 => ToHKOfLength32(act)
    case _ => OTHER_ID
  }

  function ToHKOfLength4(act: string): string {
    match act
    case "golf" => "HKWorkoutActivityTypeGolf"
    case "p90x" => "HKWorkoutActivityTypeOther"
    case "play" => "HKWorkoutActivityTypePlay"
    case "polo" => "HKWorkoutActivityTypeOther"
    case "yoga" => "HKWorkoutActivityTypeYoga"
    case _ => OTHER_ID
  }

  function ToHKOfLength5(act: string): string {
    match act
    case "other" => "HKWorkoutActivityTypeOther"
    case "rugby" => "HKWorkoutActivityTypeRugby"
    case "still" => "HKWorkoutActivityTypeOther"
    case "zumba" => "HKWorkoutActivityTypeOther"
    case _ => OTHER_ID
  }

  function ToHKOfLength6(act: string): string {
    match act
    case "biking" => "HKWorkoutActivityTypeCycling"
    case "boxing" => "HKWorkoutActivityTypeOther"
    case "diving" => "HKWorkoutActivityTypeOther"
    case "hiking" => "HKWorkoutActivityTypeHiking"
    case "hockey" => "HKWorkoutActivityTypeHockey"
    case "rowing" => "HKWorkoutActivityTypeRowing"
    case "skiing" => "HKWorkoutActivityTypeSnowSports"
    case "squash" => "HKWorkoutActivityTypeSquash"
    case "tennis" => "HKWorkoutActivityTypeTennis"
    case _ => OTHER_ID
  }

  function ToHKOfLength7(act: string): string {
    match act
    case "archery" => "HKWorkoutActivityTypeArchery"
    case "bowling" => "HKWorkoutActivityTypeBowling"
    case "cricket" => "HKWorkoutActivityTypeCricket"
    case "curling" => "HKWorkoutActivityTypeCurling"
    case "dancing" => "HKWorkoutActivityTypeDance"
    case "fencing" => "HKWorkoutActivityTypeFencing"
    case "fishing" => "HKWorkoutActivityTypeFishing"
    case "hunting" => "HKWorkoutActivityTypeHunting"
    case "on_foot" => "HKWorkoutActivityTypeOther"
    case "pilates" => "HKWorkoutActivityTypeOther"
    case "running" => "HKWorkoutActivityTypeRunning"
    case "sailing" => "HKWorkoutActivityTypeSailing"
    case "skating" => "HKWorkoutActivityTypeSkatingSports"
    case "surfing" => "HKWorkoutActivityTypeSurfingSports"
    case "tilting" => "HKWorkoutActivityTypeOther"
    case "unknown" => "HKWorkoutActivityTypeOther"
    case "walking" => "HKWorkoutActivityTypeWalking"
    case _ => OTHER_ID
  }

  function ToHKOfLength8(act: string): string {
    match act
    case "aerobics" => "HKWorkoutActivityTypeOther"
    case "baseball" => "HKWorkoutActivityTypeBaseball"
    case "biathlon" => "HKWorkoutActivityTypeOther"
    case "crossfit" => "HKWorkoutActivityTypeCrossTraining"
    case "elevator" => "HKWorkoutActivityTypeOther"
    case "handball" => "HKWorkoutActivityTypeHandball"
    case "kayaking" => "HKWorkoutActivityTypeOther"
    case "lacrosse" => "HKWorkoutActivityTypeLacrosse"
    case "sledding" => "HKWorkoutActivityTypeSnowSports"
    case "softball" => "HKWorkoutActivityTypeSoftball"
    case "swimming" => "HKWorkoutActivityTypeSwimming"
    case _ => OTHER_ID
  }

  function ToHKOfLength9(act: string): string {
    match act
    case "badminton" => "HKWorkoutActivityTypeBadminton"
    case "ergometer" => "HKWorkoutActivityTypeOther"
    case "escalator" => "HKWorkoutActivityTypeOther"
    case "gardening" => "HKWorkoutActivityTypeOther"
    case "housework" => "HKWorkoutActivityTypeOther"
    case "jump_rope" => "HKWorkoutActivityTypeOther"
    case "treadmill" => "HKWorkoutActivityTypeOther"
    case "wrestling" => "HKWorkoutActivityTypeWrestling"
    case _ => OTHER_ID
  }

  function ToHKOfLength10(act: string): string {
    match act
    case "basketball" => "HKWorkoutActivityTypeBasketball"
    case "elliptical" => "HKWorkoutActivityTypeElliptical"
    case "gymnastics" => "HKWorkoutActivityTypeGymnastics"
    case "in_vehicle" => "HKWorkoutActivityTypeOther"
    case "kickboxing" => "HKWorkoutActivityTypeOther"
    case "meditation" => "HKWorkoutActivityTypeMindAndBody"
    case "snowmobile" => "HKWorkoutActivityTypeSnowSports"
    case "volleyball" => "HKWorkoutActivityTypeVolleyball"
    case "water_polo" => "HKWorkoutActivityTypeWaterPolo"
    case "wheelchair" => "HKWorkoutActivityTypeOther"
    case _ => OTHER_ID
  }

  function ToHKOfLength11(act: string): string {
    match act
    case "biking.hand" => "HKWorkoutActivityTypeCycling"
    case "biking.road" => "HKWorkoutActivityTypeCycling"
    case "ice_skating" => "HKWorkoutActivityTypeOther"
    case "kitesurfing" => "HKWorkoutActivityTypeMartialArts"
    case "paragliding" => "HKWorkoutActivityTypeOther"
    case "racquetball" => "HKWorkoutActivityTypeRacquetball"
    case "skiing.kite" => "HKWorkoutActivityTypeSnowSports"
    case "snowshoeing" => "HKWorkoutActivityTypeSnowSports"
    case "snow_sports" => "HKWorkoutActivityTypeSnowSports"
    case "team_sports" => "HKWorkoutActivityTypeOther"
    case "windsurfing" => "HKWorkoutActivityTypeOther"
    case _ => OTHER_ID
  }

  function ToHKOfLength12(act: string): string {
    match act
    case "calisthenics" => "HKWorkoutActivityTypeOther"
    case "frisbee_disc" => "HKWorkoutActivityTypeOther"
    case "kick_scooter" => "HKWorkoutActivityTypeOther"
    case "martial_arts" => "HKWorkoutActivityTypeOther"
    case "running.sand" => "HKWorkoutActivityTypeRunning"
    case "scuba_diving" => "HKWorkoutActivityTypeOther"
    case "snowboarding" => "HKWorkoutActivityTypeSnowSports"
    case "table_tennis" => "HKWorkoutActivityTypeTableTennis"
    case "wakeboarding" => "HKWorkoutActivityTypeOther"
    case "water_sports" => "HKWorkoutActivityTypeWaterSports"
    case _ => OTHER_ID
  }

  function ToHKOfLength13(act: string): string {
    match act
    case "paddle_sports" => "HKWorkoutActivityTypePaddleSports"
    case "rock_climbing" => "HKWorkoutActivityTypeClimbing"
    case "skateboarding" => "HKWorkoutActivityTypeOther"
    case "skating.cross" => "HKWorkoutActivityTypeSkatingSports"
    case "skiing.roller" => "HKWorkoutActivityTypeSnowSports"
    case "swimming.pool" => "HKWorkoutActivityTypeSwimming"
    case "water_fitness" => "HKWorkoutActivityTypeWaterFitness"
    case "weightlifting" => "HKWorkoutActivityTypeOther"
    case _ => OTHER_ID
  }

  function ToHKOfLength14(act: string): string {
    match act
    case "biking.utility" => "HKWorkoutActivityTypeCycling"
    case "dance_inspired" => "HKWorkoutActivityTypeDanceInspiredTraining"
    case "rowing.machine" => "HKWorkoutActivityTypeRowing"
    case "skating.indoor" => "HKWorkoutActivityTypeSkatingSports"
    case "skating.inline" => "HKWorkoutActivityTypeSkatingSports"
    case "stair_climbing" => "HKWorkoutActivityTypeStairClimbing"
    case "walking.nordic" => "HKWorkoutActivityTypeWalking"
    case _ => OTHER_ID
  }

  function ToHKOfLength15(act: string): string {
    match act
    case "biking.mountain" => "HKWorkoutActivityTypeCycling"
    case "biking.spinning" => "HKWorkoutActivityTypeCycling"
    case "football.soccer" => "HKWorkoutActivityTypeSoccer"
    case "running.jogging" => "HKWorkoutActivityTypeRunning"
    case "skiing.downhill" => "HKWorkoutActivityTypeSnowSports"
    case "track_and_field" => "HKWorkoutActivityTypeTrackAndField"
    case "walking.fitness" => "HKWorkoutActivityTypeWalking"
    case _ => OTHER_ID
  }

  function ToHKOfLength16(act: string): string {
    match act
    case "circuit_training" => "HKWorkoutActivityTypeOther"
    case "horseback_riding" => "HKWorkoutActivityTypeEquestrianSports"
    case "volleyball.beach" => "HKWorkoutActivityTypeVolleyball"
    case "walking.stroller" => "HKWorkoutActivityTypeWalking"
    case _ => OTHER_ID
  }

  function ToHKOfLength17(act: string): string {
    match act
    case "biking.stationary" => "HKWorkoutActivityTypeCycling"
    case "football.american" => "KWorkoutActivityTypeAmericanFootball"
    case "interval_training" => "HKWorkoutActivityTypeOther"
    case "running.treadmill" => "HKWorkoutActivityTypeRunning"
    case "strength_training" => "HKWorkoutActivityTypeTraditionalStrengthTraining"
    case "volleyball.indoor" => "HKWorkoutActivityTypeVolleyball"
    case "walking.treadmill" => "HKWorkoutActivityTypeWalking"
    case _ => OTHER_ID
  }

  function ToHKOfLength18(act: string): string {
    match act
    case "martial_arts.mixed" => "HKWorkoutActivityTypeOther"
    case _ => OTHER_ID
  }

  function ToHKOfLength19(act: string): string {
    match act
    case "football.australian" => "HKWorkoutActivityTypeAustralianFootball"
    case "functional_strength" => "HKWorkoutActivityTypeFunctionalStrengthTraining"
    case "kettlebell_training" => "HKWorkoutActivityTypeOther"
    case "skiing.back_country" => "HKWorkoutActivityTypeSnowSports"
    case "swimming.open_water" => "HKWorkoutActivityTypeSwimming"
    case _ => OTHER_ID
  }

  function ToHKOfLength20(act: string): string {
    match act
    case "skiing.cross_country" => "HKWorkoutActivityTypeSnowSports"
    case _ => OTHER_ID
  }

  function ToHKOfLength22(act: string): string {
    match act
    case "mixed_metabolic_cardio" => "HKWorkoutActivityTypeMixedMetabolicCardioTraining"
    case "stair_climbing.machine" => "HKWorkoutActivityTypeStairClimbing"
    case "standup_paddleboarding" => "HKWorkoutActivityTypePaddleSports"
    case _ => OTHER_ID
  }

  function ToHKOfLength24(act: string): string {
    match act
    case "preparation_and_recovery" => "HKWorkoutActivityTypePreparationAndRecovery"
    case _ => OTHER_ID
  }

  function ToHKOfLength32(act: string): string {
    match act
    case "interval_training.high_intensity" => "HKWorkoutActivityTypeOther"
    case _ => OTHER_ID
  }

  /** `fromHKActivity(act)` (health.js:310-404): the label of the first case for the identifier,
      otherwise "other". A later case whose identifier an earlier case already matched can never
      answer; those labels are the `Shadowed` ones. */
  function FromHK(id: string): (r: string)
    ensures id == OTHER_ID ==> r == OTHER_LABEL
    ensures !Shadowed(r)
  {
    match |id|
    case 25 => FromHKOfLength25(id)
    case 26 => FromHKOfLength26(id)
    case 27 => FromHKOfLength27(id)
    case 28 => FromHKOfLength28(id)
    case 29 => FromHKOfLength29(id)
    case 30 => FromHKOfLength30(id)
    case 31 => FromHKOfLength31(id)
    case 32 => FromHKOfLength32(id)
    case 33 => FromHKOfLength33(id)
    case 34 => FromHKOfLength34(id)
    case 36 => FromHKOfLength36(id)
    case 37 => FromHKOfLength37(id)
    case 39 => FromHKOfLength39(id)
    case 42 => FromHKOfLength42(id)
    case 43 => FromHKOfLength43(id)
    case 47 => FromHKOfLength47(id)
    case 48 => FromHKOfLength48(id)
    case 49 => FromHKOfLength49(id)
    case _ => OTHER_LABEL
  }

  function FromHKOfLength25(id: string): (r: string)
    ensures !Shadowed(r)
  {
    match id
    case "HKWorkoutActivityTypeGolf" => "golf"
    case "HKWorkoutActivityTypePlay" => "play"
    case "HKWorkoutActivityTypeYoga" => "yoga"
    case _ => OTHER_LABEL
  }

  function FromHKOfLength26(id: string): (r: string)
    ensures !Shadowed(r)
  {
    match id
    case "HKWorkoutActivityTypeDance" => "dancing"
    case "HKWorkoutActivityTypeOther" => "other"
    case "HKWorkoutActivityTypeRugby" => "rugby"
    case _ => OTHER_LABEL
  }

  function FromHKOfLength27(id: string): (r: string)
    ensures !Shadowed(r)
  {
    match id
    case "HKWorkoutActivityTypeSoccer" => "football.soccer"
    case "HKWorkoutActivityTypeHiking" => "hiking"
    case "HKWorkoutActivityTypeHockey" => "hockey"
    case "HKWorkoutActivityTypeRowing" => "rowing"
    case "HKWorkoutActivityTypeSquash" => "squash"
    case "HKWorkoutActivityTypeTennis" => "tennis"
    case _ => OTHER_LABEL
  }

  function FromHKOfLength28(id: string): (r: string)
    ensures !Shadowed(r)
  {
    match id
    case "HKWorkoutActivityTypeArchery" => "archery"
    case "HKWorkoutActivityTypeCycling" => "biking"
    case "HKWorkoutActivityTypeBowling" => "bowling"
    case "HKWorkoutActivityTypeCricket" => "cricket"
    case "HKWorkoutActivityTypeCurling" => "curling"
    case "HKWorkoutActivityTypeFencing" => "fencing"
    case "HKWorkoutActivityTypeFishing" => "fishing"
    case "HKWorkoutActivityTypeHunting" => "hunting"
    case "HKWorkoutActivityTypeRunning" => "running"
    case "HKWorkoutActivityTypeSailing" => "sailing"
    case "HKWorkoutActivityTypeWalking" => "walking"
    case _ => OTHER_LABEL
  }

  function FromHKOfLength29(id: string): (r: string)
    ensures !Shadowed(r)
  {
    match id
    case "HKWorkoutActivityTypeBaseball" => "baseball"
    case "HKWorkoutActivityTypeHandball" => "handball"
    case "HKWorkoutActivityTypeLacrosse" => "lacrosse"
    case "HKWorkoutActivityTypeClimbing" => "rock_climbing"
    case "HKWorkoutActivityTypeSoftball" => "softball"
    case "HKWorkoutActivityTypeSwimming" => "swimming"
    case _ => OTHER_LABEL
  }

  function FromHKOfLength30(id: string): (r: string)
    ensures !Shadowed(r)
  {
    match id
    case "HKWorkoutActivityTypeBadminton" => "badminton"
    case "HKWorkoutActivityTypeWaterPolo" => "water_polo"
    case "HKWorkoutActivityTypeWrestling" => "wrestling"
    case _ => OTHER_LABEL
  }

  function FromHKOfLength31(id: string): (r: string)
    ensures !Shadowed(r)
  {
    match id
    case "HKWorkoutActivityTypeBasketball" => "basketball"
    case "HKWorkoutActivityTypeElliptical" => "elliptical"
    case "HKWorkoutActivityTypeGymnastics" => "gymnastics"
    case "HKWorkoutActivityTypeSnowSports" => "skiing"
    case "HKWorkoutActivityTypeVolleyball" => "volleyball"
    case _ => OTHER_LABEL
  }

  function FromHKOfLength32(id: string): (r: string)
    ensures !Shadowed(r)
  {
    match id
    case "HKWorkoutActivityTypeMartialArts" => "kitesurfing"
    case "HKWorkoutActivityTypeMindAndBody" => "meditation"
    case "HKWorkoutActivityTypeRacquetball" => "racquetball"
    case "HKWorkoutActivityTypeTableTennis" => "table_tennis"
    case "HKWorkoutActivityTypeWaterSports" => "water_sports"
    case _ => OTHER_LABEL
  }

  function FromHKOfLength33(id: string): (r: string)
    ensures !Shadowed(r)
  {
    match id
    case "HKWorkoutActivityTypePaddleSports" => "paddle_sports"
    case "HKWorkoutActivityTypeWaterFitness" => "water_fitness"
    case _ => OTHER_LABEL
  }

  function FromHKOfLength34(id: string): (r: string)
    ensures !Shadowed(r)
  {
    match id
    case "HKWorkoutActivityTypeCrossTraining" => "crossfit"
    case "HKWorkoutActivityTypeSkatingSports" => "skating"
    case "HKWorkoutActivityTypeStairClimbing" => "stair_climbing"
    case "HKWorkoutActivityTypeSurfingSports" => "surfing"
    case "HKWorkoutActivityTypeTrackAndField" => "track_and_field"
    case _ => OTHER_LABEL
  }

  function FromHKOfLength36(id: string): (r: string)
    ensures !Shadowed(r)
  {
    match id
    case "KWorkoutActivityTypeAmericanFootball" => "football.american"
    case _ => OTHER_LABEL
  }

  function FromHKOfLength37(id: string): (r: string)
    ensures !Shadowed(r)
  {
    match id
    case "HKWorkoutActivityTypeEquestrianSports" => "horseback_riding"
    case _ => OTHER_LABEL
  }

  function FromHKOfLength39(id: string): (r: string)
    ensures !Shadowed(r)
  {
    match id
    case "HKWorkoutActivityTypeAustralianFootball" => "football.australian"
    case _ => OTHER_LABEL
  }

  function FromHKOfLength42(id: string): (r: string)
    ensures !Shadowed(r)
  {
    match id
    case "HKWorkoutActivityTypeDanceInspiredTraining" => "dance_inspired"
    case _ => OTHER_LABEL
  }

  function FromHKOfLength43(id: string): (r: string)
    ensures !Shadowed(r)
  {
    match id
    case "HKWorkoutActivityTypePreparationAndRecovery" => "preparation_and_recovery"
    case _ => OTHER_LABEL
  }

  function FromHKOfLength47(id: string): (r: string)
    ensures !Shadowed(r)
  {
    match id
    case "HKWorkoutActivityTypeFunctionalStrengthTraining" => "functional_strength"
    case _ => OTHER_LABEL
  }

  function FromHKOfLength48(id: string): (r: string)
    ensures !Shadowed(r)
  {
    match id
    case "HKWorkoutActivityTypeTraditionalStrengthTraining" => "strength_training"
    case _ => OTHER_LABEL
  }

  function FromHKOfLength49(id: string): (r: string)
    ensures !Shadowed(r)
  {
    match id
    case "HKWorkoutActivityTypeMixedMetabolicCardioTraining" => "mixed_metabolic_cardio"
    case _ => OTHER_LABEL
  }

  /** The labels of the cases of `fromHKActivity` that repeat an identifier an earlier case already
      matched: six of the seven cycling cases (health.js:316-322) and their like. */
  predicate Shadowed(act: string) {
    match |act|
    case 8 => act in {"sledding"}
    case 10 => act in {"snowmobile"}
    case 11 => act in {"biking.hand", "biking.road", "skiing.kite", "snowshoeing", "snow_sports"}
    case 12 => act in {"running.sand", "snowboarding"}
    case 13 => act in {"skating.cross", "skiing.roller", "swimming.pool"}
    case 14 => act in {"biking.utility", "rowing.machine", "skating.indoor", "skating.inline", "walking.nordic"}
    case 15 => act in {"biking.mountain", "biking.spinning", "running.jogging", "skiing.downhill", "walking.fitness"}
    case 16 => act in {"volleyball.beach", "walking.stroller"}
    case 17 => act in {"biking.stationary", "running.treadmill", "volleyball.indoor", "walking.treadmill"}
    case 19 => act in {"skiing.back_country", "swimming.open_water"}
    case 20 => act in {"skiing.cross_country"}
    case 22 => act in {"stair_climbing.machine", "standup_paddleboarding"}
    case _ => false
  }

  /** A label survives a store and a read (`fromHKActivity(toHKActivity(a))`) exactly when it is
      "other", or it has an identifier of its own and is the first case of `fromHKActivity` for that
      identifier. So "biking" survives while "biking.road" comes back as "biking", and a label
      stored as HealthKit's "other" comes back as "other". The proof goes label by label, a few
      labels of one length at a time. */
  lemma RoundTripIff(a: string)
    ensures FromHK(ToHK(a)) == a <==> a == OTHER_LABEL || (ToHK(a) != OTHER_ID && !Shadowed(a))
  {
    match |a|
    case 4 =>
      if a[0] >= 'y' {
        RoundTripOfLength4FromY(a);
      } else {
        RoundTripOfLength4FromG(a);
      }
    case 5 => RoundTripOfLength5(a);
    case 6 =>
      if a[0] >= 's' {
        RoundTripOfLength6FromS(a);
      } else if a[0] >= 'h' {
        RoundTripOfLength6FromH(a);
      } else {
        RoundTripOfLength6FromB(a);
      }
    case 7 =>
      if a[0] >= 't' {
        RoundTripOfLength7FromT(a);
      } else if a[0] >= 'r' {
        RoundTripOfLength7FromR(a);
      } else if a[0] >= 'h' {
        RoundTripOfLength7FromH(a);
      } else if a[0] >= 'd' {
        RoundTripOfLength7FromD(a);
      } else {
        RoundTripOfLength7FromA(a);
      }
    case 8 =>
      if a[0] >= 'k' {
        RoundTripOfLength8FromK(a);
      } else if a[0] >= 'c' {
        RoundTripOfLength8FromC(a);
      } else {
        RoundTripOfLength8FromA(a);
      }
    case 9 =>
      if a[0] >= 't' {
        RoundTripOfLength9FromT(a);
      } else if a[0] >= 'g' {
        RoundTripOfLength9FromG(a);
      } else {
        RoundTripOfLength9FromB(a);
      }
    case 10 =>
      if a[0] >= 's' {
        RoundTripOfLength10FromS(a);
      } else if a[0] >= 'i' {
        RoundTripOfLength10FromI(a);
      } else {
        RoundTripOfLength10FromB(a);
      }
    case 11 =>
      if a[0] >= 't' {
        RoundTripOfLength11FromT(a);
      } else if a[0] >= 's' {
        RoundTripOfLength11FromS(a);
      } else if a[0] >= 'k' {
        RoundTripOfLength11FromK(a);
      } else {
        RoundTripOfLength11FromB(a);
      }
    case 12 =>
      if a[0] >= 't' {
        RoundTripOfLength12FromT(a);
      } else if a[0] >= 'm' {
        RoundTripOfLength12FromM(a);
      } else {
        RoundTripOfLength12FromC(a);
      }
    case 13 =>
      if a[0] >= 'w' {
        RoundTripOfLength13FromW(a);
      } else {
        RoundTripOfLength13FromP(a);
      }
    case 14 =>
      if a[0] >= 'w' {
        RoundTripOfLength14FromW(a);
      } else if a[0] >= 's' {
        RoundTripOfLength14FromS(a);
      } else {
        RoundTripOfLength14FromB(a);
      }
    case 15 =>
      if a[0] >= 'w' {
        RoundTripOfLength15FromW(a);
      } else if a[0] >= 'r' {
        RoundTripOfLength15FromR(a);
      } else {
        RoundTripOfLength15FromB(a);
      }
    case 16 => RoundTripOfLength16(a);
    case 17 =>
      if a[0] >= 'w' {
        RoundTripOfLength17FromW(a);
      } else if a[0] >= 'r' {
        RoundTripOfLength17FromR(a);
      } else {
        RoundTripOfLength17FromB(a);
      }
    case 18 => RoundTripOfLength18(a);
    case 19 =>
      if a[0] >= 's' {
        RoundTripOfLength19FromS(a);
      } else {
        RoundTripOfLength19FromF(a);
      }
    case 20 => RoundTripOfLength20(a);
    case 22 => RoundTripOfLength22(a);
    case 24 => RoundTripOfLength24(a);
    case 32 => RoundTripOfLength32(a);
    case _ =>
  }

  lemma RoundTripOfLength4FromG(a: string)
    requires |a| == 4 && a[0] < 'y'
    ensures FromHK(ToHK(a)) == a <==> a == OTHER_LABEL || (ToHK(a) != OTHER_ID && !Shadowed(a))
  {
    match a
    case "golf" =>
    case "p90x" =>
    case "play" =>
    case "polo" =>
    case _ =>
  }

  lemma RoundTripOfLength4FromY(a: string)
    requires |a| == 4 && 'y' <= a[0]
    ensures FromHK(ToHK(a)) == a <==> a == OTHER_LABEL || (ToHK(a) != OTHER_ID && !Shadowed(a))
  {
    match a
    case "yoga" =>
    case _ =>
  }

  lemma RoundTripOfLength5(a: string)
    requires |a| == 5
    ensures FromHK(ToHK(a)) == a <==> a == OTHER_LABEL || (ToHK(a) != OTHER_ID && !Shadowed(a))
  {
    match a
    case "other" =>
    case "rugby" =>
    case "still" =>
    case "zumba" =>
    case _ =>
  }

  lemma RoundTripOfLength6FromB(a: string)
    requires |a| == 6 && a[0] < 'h'
    ensures FromHK(ToHK(a)) == a <==> a == OTHER_LABEL || (ToHK(a) != OTHER_ID && !Shadowed(a))
  {
    match a
    case "biking" =>
    case "boxing" =>
    case "diving" =>
    case _ =>
  }

  lemma RoundTripOfLength6FromH(a: string)
    requires |a| == 6 && 'h' <= a[0] && a[0] < 's'
    ensures FromHK(ToHK(a)) == a <==> a == OTHER_LABEL || (ToHK(a) != OTHER_ID && !Shadowed(a))
  {
    match a
    case "hiking" =>
    case "hockey" =>
    case "rowing" =>
    case _ =>
  }

  lemma RoundTripOfLength6FromS(a: string)
    requires |a| == 6 && 's' <= a[0]
    ensures FromHK(ToHK(a)) == a <==> a == OTHER_LABEL || (ToHK(a) != OTHER_ID && !Shadowed(a))
  {
    match a
    case "skiing" =>
    case "squash" =>
    case "tennis" =>
    case _ =>
  }

  lemma RoundTripOfLength7FromA(a: string)
    requires |a| == 7 && a[0] < 'd'
    ensures FromHK(ToHK(a)) == a <==> a == OTHER_LABEL || (ToHK(a) != OTHER_ID && !Shadowed(a))
  {
    match a
    case "archery" =>
    case "bowling" =>
    case "cricket" =>
    case "curling" =>
    case _ =>
  }

  lemma RoundTripOfLength7FromD(a: string)
    requires |a| == 7 && 'd' <= a[0] && a[0] < 'h'
    ensures FromHK(ToHK(a)) == a <==> a == OTHER_LABEL || (ToHK(a) != OTHER_ID && !Shadowed(a))
  {
    match a
    case "dancing" =>
    case "fencing" =>
    case "fishing" =>
    case _ =>
  }

  lemma RoundTripOfLength7FromH(a: string)
    requires |a| == 7 && 'h' <= a[0] && a[0] < 'r'
    ensures FromHK(ToHK(a)) == a <==> a == OTHER_LABEL || (ToHK(a) != OTHER_ID && !Shadowed(a))
  {
    match a
    case "hunting" =>
    case "on_foot" =>
    case "pilates" =>
    case _ =>
  }

  lemma RoundTripOfLength7FromR(a: string)
    requires |a| == 7 && 'r' <= a[0] && a[0] < 't'
    ensures FromHK(ToHK(a)) == a <==> a == OTHER_LABEL || (ToHK(a) != OTHER_ID && !Shadowed(a))
  {
    match a
    case "running" =>
    case "sailing" =>
    case "skating" =>
    case "surfing" =>
    case _ =>
  }

  lemma RoundTripOfLength7FromT(a: string)
    requires |a| == 7 && 't' <= a[0]
    ensures FromHK(ToHK(a)) == a <==> a == OTHER_LABEL || (ToHK(a) != OTHER_ID && !Shadowed(a))
  {
    match a
    case "tilting" =>
    case "unknown" =>
    case "walking" =>
    case _ =>
  }

  lemma RoundTripOfLength8FromA(a: string)
    requires |a| == 8 && a[0] < 'c'
    ensures FromHK(ToHK(a)) == a <==> a == OTHER_LABEL || (ToHK(a) != OTHER_ID && !Shadowed(a))
  {
    match a
    case "aerobics" =>
    case "baseball" =>
    case "biathlon" =>
    case _ =>
  }

  lemma RoundTripOfLength8FromC(a: string)
    requires |a| == 8 && 'c' <= a[0] && a[0] < 'k'
    ensures FromHK(ToHK(a)) == a <==> a == OTHER_LABEL || (ToHK(a) != OTHER_ID && !Shadowed(a))
  {
    match a
    case "crossfit" =>
    case "elevator" =>
    case "handball" =>
    case _ =>
  }

  lemma RoundTripOfLength8FromK(a: string)
    requires |a| == 8 && 'k' <= a[0]
    ensures FromHK(ToHK(a)) == a <==> a == OTHER_LABEL || (ToHK(a) != OTHER_ID && !Shadowed(a))
  {
    match a
    case "kayaking" =>
    case "lacrosse" =>
    case "sledding" =>
    case "softball" =>
    case "swimming" =>
    case _ =>
  }

  lemma RoundTripOfLength9FromB(a: string)
    requires |a| == 9 && a[0] < 'g'
    ensures FromHK(ToHK(a)) == a <==> a == OTHER_LABEL || (ToHK(a) != OTHER_ID && !Shadowed(a))
  {
    match a
    case "badminton" =>
    case "ergometer" =>
    case "escalator" =>
    case _ =>
  }

  lemma RoundTripOfLength9FromG(a: string)
    requires |a| == 9 && 'g' <= a[0] && a[0] < 't'
    ensures FromHK(ToHK(a)) == a <==> a == OTHER_LABEL || (ToHK(a) != OTHER_ID && !Shadowed(a))
  {
    match a
    case "gardening" =>
    case "housework" =>
    case "jump_rope" =>
    case _ =>
  }

  lemma RoundTripOfLength9FromT(a: string)
    requires |a| == 9 && 't' <= a[0]
    ensures FromHK(ToHK(a)) == a <==> a == OTHER_LABEL || (ToHK(a) != OTHER_ID && !Shadowed(a))
  {
    match a
    case "treadmill" =>
    case "wrestling" =>
    case _ =>
  }

  lemma RoundTripOfLength10FromB(a: string)
    requires |a| == 10 && a[0] < 'i'
    ensures FromHK(ToHK(a)) == a <==> a == OTHER_LABEL || (ToHK(a) != OTHER_ID && !Shadowed(a))
  {
    match a
    case "basketball" =>
    case "elliptical" =>
    case "gymnastics" =>
    case _ =>
  }

  lemma RoundTripOfLength10FromI(a: string)
    requires |a| == 10 && 'i' <= a[0] && a[0] < 's'
    ensures FromHK(ToHK(a)) == a <==> a == OTHER_LABEL || (ToHK(a) != OTHER_ID && !Shadowed(a))
  {
    match a
    case "in_vehicle" =>
    case "kickboxing" =>
    case "meditation" =>
    case _ =>
  }

  lemma RoundTripOfLength10FromS(a: string)
    requires |a| == 10 && 's' <= a[0]
    ensures FromHK(ToHK(a)) == a <==> a == OTHER_LABEL || (ToHK(a) != OTHER_ID && !Shadowed(a))
  {
    match a
    case "snowmobile" =>
    case "volleyball" =>
    case "water_polo" =>
    case "wheelchair" =>
    case _ =>
  }

  lemma RoundTripOfLength11FromB(a: string)
    requires |a| == 11 && a[0] < 'k'
    ensures FromHK(ToHK(a)) == a <==> a == OTHER_LABEL || (ToHK(a) != OTHER_ID && !Shadowed(a))
  {
    match a
    case "biking.hand" =>
    case "biking.road" =>
    case "ice_skating" =>
    case _ =>
  }

  lemma RoundTripOfLength11FromK(a: string)
    requires |a| == 11 && 'k' <= a[0] && a[0] < 's'
    ensures FromHK(ToHK(a)) == a <==> a == OTHER_LABEL || (ToHK(a) != OTHER_ID && !Shadowed(a))
  {
    match a
    case "kitesurfing" =>
    case "paragliding" =>
    case "racquetball" =>
    case _ =>
  }

  lemma RoundTripOfLength11FromS(a: string)
    requires |a| == 11 && 's' <= a[0] && a[0] < 't'
    ensures FromHK(ToHK(a)) == a <==> a == OTHER_LABEL || (ToHK(a) != OTHER_ID && !Shadowed(a))
  {
    match a
    case "skiing.kite" =>
    case "snowshoeing" =>
    case "snow_sports" =>
    case _ =>
  }

  lemma RoundTripOfLength11FromT(a: string)
    requires |a| == 11 && 't' <= a[0]
    ensures FromHK(ToHK(a)) == a <==> a == OTHER_LABEL || (ToHK(a) != OTHER_ID && !Shadowed(a))
  {
    match a
    case "team_sports" =>
    case "windsurfing" =>
    case _ =>
  }

  lemma RoundTripOfLength12FromC(a: string)
    requires |a| == 12 && a[0] < 'm'
    ensures FromHK(ToHK(a)) == a <==> a == OTHER_LABEL || (ToHK(a) != OTHER_ID && !Shadowed(a))
  {
    match a
    case "calisthenics" =>
    case "frisbee_disc" =>
    case "kick_scooter" =>
    case _ =>
  }

  lemma RoundTripOfLength12FromM(a: string)
    requires |a| == 12 && 'm' <= a[0] && a[0] < 't'
    ensures FromHK(ToHK(a)) == a <==> a == OTHER_LABEL || (ToHK(a) != OTHER_ID && !Shadowed(a))
  {
    match a
    case "martial_arts" =>
    case "running.sand" =>
    case "scuba_diving" =>
    case "snowboarding" =>
    case _ =>
  }

  lemma RoundTripOfLength12FromT(a: string)
    requires |a| == 12 && 't' <= a[0]
    ensures FromHK(ToHK(a)) == a <==> a == OTHER_LABEL || (ToHK(a) != OTHER_ID && !Shadowed(a))
  {
    match a
    case "table_tennis" =>
    case "wakeboarding" =>
    case "water_sports" =>
    case _ =>
  }

  lemma RoundTripOfLength13FromP(a: string)
    requires |a| == 13 && a[0] < 'w'
    ensures FromHK(ToHK(a)) == a <==> a == OTHER_LABEL || (ToHK(a) != OTHER_ID && !Shadowed(a))
  {
    match a
    case "paddle_sports" =>
    case "rock_climbing" =>
    case "skateboarding" =>
    case "skating.cross" =>
    case "skiing.roller" =>
    case "swimming.pool" =>
    case _ =>
  }

  lemma RoundTripOfLength13FromW(a: string)
    requires |a| == 13 && 'w' <= a[0]
    ensures FromHK(ToHK(a)) == a <==> a == OTHER_LABEL || (ToHK(a) != OTHER_ID && !Shadowed(a))
  {
    match a
    case "water_fitness" =>
    case "weightlifting" =>
    case _ =>
  }

  lemma RoundTripOfLength14FromB(a: string)
    requires |a| == 14 && a[0] < 's'
    ensures FromHK(ToHK(a)) == a <==> a == OTHER_LABEL || (ToHK(a) != OTHER_ID && !Shadowed(a))
  {
    match a
    case "biking.utility" =>
    case "dance_inspired" =>
    case "rowing.machine" =>
    case _ =>
  }

  lemma RoundTripOfLength14FromS(a: string)
    requires |a| == 14 && 's' <= a[0] && a[0] < 'w'
    ensures FromHK(ToHK(a)) == a <==> a == OTHER_LABEL || (ToHK(a) != OTHER_ID && !Shadowed(a))
  {
    match a
    case "skating.indoor" =>
    case "skating.inline" =>
    case "stair_climbing" =>
    case _ =>
  }

  lemma RoundTripOfLength14FromW(a: string)
    requires |a| == 14 && 'w' <= a[0]
    ensures FromHK(ToHK(a)) == a <==> a == OTHER_LABEL || (ToHK(a) != OTHER_ID && !Shadowed(a))
  {
    match a
    case "walking.nordic" =>
    case _ =>
  }

  lemma RoundTripOfLength15FromB(a: string)
    requires |a| == 15 && a[0] < 'r'
    ensures FromHK(ToHK(a)) == a <==> a == OTHER_LABEL || (ToHK(a) != OTHER_ID && !Shadowed(a))
  {
    match a
    case "biking.mountain" =>
    case "biking.spinning" =>
    case "football.soccer" =>
    case _ =>
  }

  lemma RoundTripOfLength15FromR(a: string)
    requires |a| == 15 && 'r' <= a[0] && a[0] < 'w'
    ensures FromHK(ToHK(a)) == a <==> a == OTHER_LABEL || (ToHK(a) != OTHER_ID && !Shadowed(a))
  {
    match a
    case "running.jogging" =>
    case "skiing.downhill" =>
    case "track_and_field" =>
    case _ =>
  }

  lemma RoundTripOfLength15FromW(a: string)
    requires |a| == 15 && 'w' <= a[0]
    ensures FromHK(ToHK(a)) == a <==> a == OTHER_LABEL || (ToHK(a) != OTHER_ID && !Shadowed(a))
  {
    match a
    case "walking.fitness" =>
    case _ =>
  }

  lemma RoundTripOfLength16(a: string)
    requires |a| == 16
    ensures FromHK(ToHK(a)) == a <==> a == OTHER_LABEL || (ToHK(a) != OTHER_ID && !Shadowed(a))
  {
    match a
    case "circuit_training" =>
    case "horseback_riding" =>
    case "volleyball.beach" =>
    case "walking.stroller" =>
    case _ =>
  }

  lemma RoundTripOfLength17FromB(a: string)
    requires |a| == 17 && a[0] < 'r'
    ensures FromHK(ToHK(a)) == a <==> a == OTHER_LABEL || (ToHK(a) != OTHER_ID && !Shadowed(a))
  {
    match a
    case "biking.stationary" =>
    case "football.american" =>
    case "interval_training" =>
    case _ =>
  }

  lemma RoundTripOfLength17FromR(a: string)
    requires |a| == 17 && 'r' <= a[0] && a[0] < 'w'
    ensures FromHK(ToHK(a)) == a <==> a == OTHER_LABEL || (ToHK(a) != OTHER_ID && !Shadowed(a))
  {
    match a
    case "running.treadmill" =>
    case "strength_training" =>
    case "volleyball.indoor" =>
    case _ =>
  }

  lemma RoundTripOfLength17FromW(a: string)
    requires |a| == 17 && 'w' <= a[0]
    ensures FromHK(ToHK(a)) == a <==> a == OTHER_LABEL || (ToHK(a) != OTHER_ID && !Shadowed(a))
  {
    match a
    case "walking.treadmill" =>
    case _ =>
  }

  lemma RoundTripOfLength18(a: string)
    requires |a| == 18
    ensures FromHK(ToHK(a)) == a <==> a == OTHER_LABEL || (ToHK(a) != OTHER_ID && !Shadowed(a))
  {
    match a
    case "martial_arts.mixed" =>
    case _ =>
  }

  lemma RoundTripOfLength19FromF(a: string)
    requires |a| == 19 && a[0] < 's'
    ensures FromHK(ToHK(a)) == a <==> a == OTHER_LABEL || (ToHK(a) != OTHER_ID && !Shadowed(a))
  {
    match a
    case "football.australian" =>
    case "functional_strength" =>
    case "kettlebell_training" =>
    case _ =>
  }

  lemma RoundTripOfLength19FromS(a: string)
    requires |a| == 19 && 's' <= a[0]
    ensures FromHK(ToHK(a)) == a <==> a == OTHER_LABEL || (ToHK(a) != OTHER_ID && !Shadowed(a))
  {
    match a
    case "skiing.back_country" =>
    case "swimming.open_water" =>
    case _ =>
  }

  lemma RoundTripOfLength20(a: string)
    requires |a| == 20
    ensures FromHK(ToHK(a)) == a <==> a == OTHER_LABEL || (ToHK(a) != OTHER_ID && !Shadowed(a))
  {
    match a
    case "skiing.cross_country" =>
    case _ =>
  }

  lemma RoundTripOfLength22(a: string)
    requires |a| == 22
    ensures FromHK(ToHK(a)) == a <==> a == OTHER_LABEL || (ToHK(a) != OTHER_ID && !Shadowed(a))
  {
    match a
    case "mixed_metabolic_cardio" =>
    case "stair_climbing.machine" =>
    case "standup_paddleboarding" =>
    case _ =>
  }

  lemma RoundTripOfLength24(a: string)
    requires |a| == 24
    ensures FromHK(ToHK(a)) == a <==> a == OTHER_LABEL || (ToHK(a) != OTHER_ID && !Shadowed(a))
  {
    match a
    case "preparation_and_recovery" =>
    case _ =>
  }

  lemma RoundTripOfLength32(a: string)
    requires |a| == 32
    ensures FromHK(ToHK(a)) == a <==> a == OTHER_LABEL || (ToHK(a) != OTHER_ID && !Shadowed(a))
  {
    match a
    case "interval_training.high_intensity" =>
    case _ =>
  }
}
