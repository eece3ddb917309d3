/** The binder processor's classification of a bound class: not a
    multibinding, a set contribution, or a map contribution keyed by the
    first map-key annotation on the class. Annotations are plain data: the
    four key annotations of the binder with their values, and any other
    annotation by name, with whether its type is marked as a map key. */
module ContributionTypes {
  import opened Results

  /** `BindType.contributesTo`. */
  datatype Collection = NONE | SET | MAP

  /** An annotation on the bound class. The binder's four key annotations
      are map keys; another annotation is one when its type carries the
      map-key marker. */
  datatype Annotation =
    | IntKey(intValue: int)
    | LongKey(longValue: int)
    | StringKey(stringValue: string)
    | ClassKey(classValue: string)
    | Other(name: string, markedAsMapKey: bool)

  datatype StandardValue =
    | IntValue(i: int)
    | LongValue(l: int)
    | StringValue(s: string)
    | ClassValue(c: string)

  datatype MapKeyType = Standard(value: StandardValue) | Custom(annotation: Annotation)

  datatype ContributionType = SetContribution | MapContribution(keyType: MapKeyType)

  /** `first` finds no map-key annotation and throws. */
  datatype DetectError = NoMapKeyAnnotation

  /** The annotation's type is itself annotated with the map-key marker. */
  predicate IsMapKey(a: Annotation) {
    !a.Other? || a.markedAsMapKey
  }

  /** `first { p(it) }`, as a position. */
  function First(s: seq<Annotation>, p: Annotation -> bool): (r: Option<nat>)
    ensures r.None? <==> forall i :: 0 <= i < |s| ==> !p(s[i])
    ensures r.Some? ==> r.value < |s| && p(s[r.value])
    ensures r.Some? ==> forall i :: 0 <= i < r.value ==> !p(s[i])
  {
    if |s| == 0 then None
    else if p(s[0]) then Some(0)
    else
      match First(s[1..], p)
      case None => None
      case Some(k) => Some(k + 1)
  }

  /** `getAnnotation(MapIntKey::class.java)` and its three siblings: the
      class's annotation of that type, which the caller knows is there. */
  function GetAnnotation(annotations: seq<Annotation>, ofType: Annotation -> bool): (a: Annotation)
    requires exists i :: 0 <= i < |annotations| && ofType(annotations[i])
    ensures ofType(a) && a in annotations
  {
    annotations[First(annotations, ofType).value]
  }

  predicate IsIntKey(a: Annotation) { a.IntKey? }
  predicate IsLongKey(a: Annotation) { a.LongKey? }
  predicate IsStringKey(a: Annotation) { a.StringKey? }
  predicate IsClassKey(a: Annotation) { a.ClassKey? }

  /** A key annotation of one of the binder's types is the annotation
      `getAnnotation` finds for that type: an earlier one of the same type
      would itself have been the first map key. */
  lemma LookupFindsKey(annotations: seq<Annotation>, i: nat, ofType: Annotation -> bool)
    requires i < |annotations| && ofType(annotations[i])
    requires forall a :: ofType(a) ==> IsMapKey(a)
    requires forall j :: 0 <= j < i ==> !IsMapKey(annotations[j])
    ensures GetAnnotation(annotations, ofType) == annotations[i]
  {
    var f := First(annotations, ofType);
    assert f.Some?;
    assert !(f.value < i);
    assert !(f.value > i);
  }

  /** `createStandardKeyType`: the key annotation's type is compared with
      the int, long, string and class key types in that order; the value
      is read from the class's annotation of the matching type. */
  function CreateStandardKeyType(annotations: seq<Annotation>, mapKey: Annotation): (r: Option<MapKeyType>)
    requires mapKey in annotations
    ensures r.None? <==> mapKey.Other?
    ensures r.Some? ==> r.value.Standard?
  {
    if mapKey.IntKey? then
      Some(Standard(IntValue(GetAnnotation(annotations, IsIntKey).intValue)))
    else if mapKey.LongKey? then
      Some(Standard(LongValue(GetAnnotation(annotations, IsLongKey).longValue)))
    else if mapKey.StringKey? then
      Some(Standard(StringValue(GetAnnotation(annotations, IsStringKey).stringValue)))
    else if mapKey.ClassKey? then
      Some(Standard(ClassValue(GetAnnotation(annotations, IsClassKey).classValue)))
    else None
  }

  /** `createMapContributionType`: the first map-key annotation, as a
      standard key when it is one of the binder's, else as a custom key. */
  function CreateMapContributionType(annotations: seq<Annotation>): Result<ContributionType, DetectError> {
    match First(annotations, IsMapKey)
    case None => Err(NoMapKeyAnnotation)
    case Some(i) =>
      var mapKey := annotations[i];
      var keyType := match CreateStandardKeyType(annotations, mapKey)
        case Some(k) => k
        case None => Custom(mapKey);
      Ok(MapContribution(keyType))
  }

  /** `detectType`. */
  function DetectType(contributesTo: Collection, annotations: seq<Annotation>): (r: Result<Option<ContributionType>, DetectError>)
    ensures contributesTo.NONE? ==> r == Ok(None)
    ensures contributesTo.SET? ==> r == Ok(Some(SetContribution))
    ensures contributesTo.MAP? ==>
              (r.Err? <==> forall i :: 0 <= i < |annotations| ==> !IsMapKey(annotations[i]))
    ensures contributesTo.MAP? && r.Ok? ==> r.value.Some? && r.value.value.MapContribution?
    ensures r.Ok? && r.value.Some? && r.value.value.MapContribution? ==> contributesTo.MAP?
  {
    match contributesTo
    case NONE => Ok(None)
    case SET => Ok(Some(SetContribution))
    case MAP =>
      var t :- CreateMapContributionType(annotations);
      Ok(Some(t))
  }

  /** The key of the map contribution as the first map-key annotation
      determines it: its own value for one of the binder's key types, the
      annotation itself otherwise. */
  function KeyOf(a: Annotation): MapKeyType {
    match a
    case IntKey(v) => Standard(IntValue(v))
    case LongKey(v) => Standard(LongValue(v))
    case StringKey(v) => Standard(StringValue(v))
    case ClassKey(v) => Standard(ClassValue(v))
    case Other(_, _) => Custom(a)
  }

  /** A map contribution is keyed by the first map-key annotation of the
      class, whatever annotations come before or after it. */
  lemma MapKeyIsFirstMapKeyAnnotation(annotations: seq<Annotation>, i: nat)
    requires i < |annotations| && IsMapKey(annotations[i])
    requires forall j :: 0 <= j < i ==> !IsMapKey(annotations[j])
    ensures DetectType(MAP, annotations) == Ok(Some(MapContribution(KeyOf(annotations[i]))))
  {
    var f := First(annotations, IsMapKey);
    assert f.Some?;
    assert !(f.value < i) && !(f.value > i);
    var a := annotations[i];
    match a
    case IntKey(_) => LookupFindsKey(annotations, i, IsIntKey);
    case LongKey(_) => LookupFindsKey(annotations, i, IsLongKey);
    case StringKey(_) => LookupFindsKey(annotations, i, IsStringKey);
    case ClassKey(_) => LookupFindsKey(annotations, i, IsClassKey);
    case Other(_, _) =>
  }

  /** Conversely, the detected key gives back the key annotation: a
      standard int key of value v comes only from a first map-key
      annotation `MapIntKey(v)`, and a custom key is that annotation. */
  lemma KeyDeterminesAnnotation(a: Annotation, b: Annotation)
    requires IsMapKey(a) && IsMapKey(b)
    requires KeyOf(a) == KeyOf(b)
    ensures a == b
  {
  }
}
