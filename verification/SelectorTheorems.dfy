/** Which label sets a Kubernetes label selector matches: all of them, some, or none. */
module SelectorTheorems {
  import opened Sequences
  import opened Values
  import opened NetworkPolicies

  type Labels = map<string, string>

  const OPERATORS := {"In", "NotIn", "Exists", "DoesNotExist"}

  ghost predicate RequirementHolds(r: Doc, labels: Labels) {
    var key, values := StringField(r, "key"), StringItems(Field(r, "values"));
    if StringField(r, "operator") == "In" then key in labels && labels[key] in values
    else if StringField(r, "operator") == "NotIn" then !(key in labels && labels[key] in values)
    else if StringField(r, "operator") == "Exists" then key in labels
    else key !in labels
  }

  ghost predicate WellFormedRequirement(v: Value) {
    && v.Map? && StringField(v.fields, "operator") in OPERATORS
    && (StringField(v.fields, "operator") in {"In", "NotIn"} ==> StringItems(Field(v.fields, "values")) != [])
  }

  ghost predicate WellFormedSelector(s: Doc) {
    && s.Keys <= {"matchLabels", "matchExpressions"}
    && (Field(s, "matchLabels").Map? || Field(s, "matchLabels") == Null)
    && (forall k :: k in MapField(s, "matchLabels") ==> MapField(s, "matchLabels")[k].Str?)
    && (Field(s, "matchExpressions").List? || Field(s, "matchExpressions") == Null)
    && (forall v :: v in ListField(s, "matchExpressions") ==> WellFormedRequirement(v))
  }

  ghost predicate LabelHolds(s: Doc, key: string, labels: Labels)
    requires key in MapField(s, "matchLabels")
  {
    key in labels && MapField(s, "matchLabels")[key] == Str(labels[key])
  }

  /** Kubernetes semantics: every label and every requirement must hold. */
  ghost predicate Matches(s: Doc, labels: Labels) {
    && (forall k :: k in MapField(s, "matchLabels") ==> LabelHolds(s, k, labels))
    && (forall v :: v in ListField(s, "matchExpressions") && v.Map? ==> RequirementHolds(v.fields, labels))
  }

  /** Every well-formed requirement rules out some label set. */
  lemma {:induction false} RequirementExcludes(r: Doc) returns (labels: Labels)
    requires WellFormedRequirement(Map(r))
    ensures !RequirementHolds(r, labels)
  {
    var key, values := StringField(r, "key"), StringItems(Field(r, "values"));
    if StringField(r, "operator") == "NotIn" {
      labels := map[key := values[0]];
    } else if StringField(r, "operator") == "DoesNotExist" {
      labels := map[key := ""];
    } else {
      labels := map[];
    }
  }

  /** selectorSelectsAll is exact: on well-formed selectors it answers whether every label set matches. */
  lemma {:induction false} SelectorExact(s: Doc)
    requires WellFormedSelector(s)
    ensures SelectsEverything(s) <==> forall labels: Labels :: Matches(s, labels)
  {
    if SelectsEverything(s) {
      OpenSelectorFields(s);
    } else {
      var key :| key in s && !SelectorEntryOpen(key, s[key]);
      if key == "matchLabels" {
        LabelsExclude(s);
      } else {
        ExpressionsExclude(s);
      }
    }
  }

  lemma {:induction false} OpenSelectorFields(s: Doc)
    requires SelectsEverything(s)
    ensures MapField(s, "matchLabels") == map[] && ListField(s, "matchExpressions") == []
  {
    if "matchLabels" in s {
      assert SelectorEntryOpen("matchLabels", s["matchLabels"]);
    }
    if "matchExpressions" in s {
      assert SelectorEntryOpen("matchExpressions", s["matchExpressions"]);
    }
  }

  lemma {:induction false} LabelsExclude(s: Doc)
    requires Field(s, "matchLabels").Map? && MapField(s, "matchLabels") != map[]
    ensures !Matches(s, map[])
  {
    var k :| k in MapField(s, "matchLabels");
    assert !LabelHolds(s, k, map[]);
  }

  lemma {:induction false} ExpressionsExclude(s: Doc)
    requires WellFormedSelector(s) && ListField(s, "matchExpressions") != []
    ensures exists labels: Labels :: !Matches(s, labels)
  {
    var v := ListField(s, "matchExpressions")[0];
    assert v in ListField(s, "matchExpressions") && WellFormedRequirement(v);
    var labels := RequirementExcludes(v.fields);
    assert !Matches(s, labels);
  }

  // ----- selectors that match nothing

  predicate Asks(v: Value, key: string, operator: string) {
    v.Map? && StringField(v.fields, "key") == key && StringField(v.fields, "operator") == operator
  }

  /** Some requirement on the key has the operator. */
  ghost predicate Required(s: Doc, key: string, operator: string) {
    exists v :: v in ListField(s, "matchExpressions") && Asks(v, key, operator)
  }

  /** The key must have one of finitely many values. */
  ghost predicate Pinned(s: Doc, key: string) {
    key in MapField(s, "matchLabels") || Required(s, key, "In")
  }

  /** What a requirement that pins its key allows. */
  function InValues(key: string): Value -> seq<string> {
    v => if Asks(v, key, "In") then StringItems(Field(v.fields, "values")) else []
  }

  function NotInValues(key: string): Value -> seq<string> {
    v => if Asks(v, key, "NotIn") then StringItems(Field(v.fields, "values")) else []
  }

  /** The values the selector itself names for the key. */
  function Candidates(s: Doc, key: string): seq<string> {
    (if key in MapField(s, "matchLabels") then [AsString(MapField(s, "matchLabels")[key])] else [])
    + FlatMap(ListField(s, "matchExpressions"), InValues(key))
  }

  /** Label and requirements on the key allow the value. */
  ghost predicate Allows(s: Doc, key: string, value: string) {
    && (key in MapField(s, "matchLabels") ==> MapField(s, "matchLabels")[key] == Str(value))
    && (forall v :: v in ListField(s, "matchExpressions") && Asks(v, key, "In")
                    ==> value in StringItems(Field(v.fields, "values")))
    && (forall v :: v in ListField(s, "matchExpressions") && Asks(v, key, "NotIn")
                    ==> value !in StringItems(Field(v.fields, "values")))
  }

  /** The key has to be there, and it must not be there or none of the values named for it is allowed. */
  ghost predicate Clash(s: Doc, key: string) {
    && (Pinned(s, key) || Required(s, key, "Exists"))
    && (|| Required(s, key, "DoesNotExist")
        || (Pinned(s, key) && forall value :: value in Candidates(s, key) ==> !Allows(s, key, value)))
  }

  /** The selector contradicts itself on some key it names. */
  ghost predicate SelectsNothing(s: Doc) {
    exists key :: Clash(s, key)
  }

  lemma {:induction false} LongestBelow(xs: seq<string>) returns (n: nat)
    ensures forall x :: x in xs ==> |x| < n
  {
    n := 0;
    for i := 0 to |xs|
      invariant forall x :: x in xs[..i] ==> |x| < n
    {
      assert xs[..i + 1] == xs[..i] + [xs[i]];
      n := n + |xs[i]| + 1;
    }
    assert xs[..|xs|] == xs;
  }

  /** Finitely many exclusions always leave a value. */
  lemma {:induction false} FreshValue(xs: seq<string>) returns (value: string)
    ensures value !in xs
  {
    var n := LongestBelow(xs);
    value := seq(n, _ => 'x');
  }

  lemma {:induction false} AllowedExists(s: Doc, key: string)
    requires WellFormedSelector(s) && !Clash(s, key) && (Pinned(s, key) || Required(s, key, "Exists"))
    ensures exists value :: Allows(s, key, value)
  {
    if !Pinned(s, key) {
      var excluded := FlatMap(ListField(s, "matchExpressions"), NotInValues(key));
      var value := FreshValue(excluded);
      forall v | v in ListField(s, "matchExpressions") && Asks(v, key, "NotIn")
        ensures value !in StringItems(Field(v.fields, "values"))
      {
        InFlatMap(ListField(s, "matchExpressions"), NotInValues(key), value);
        assert StringItems(Field(v.fields, "values")) == NotInValues(key)(v);
      }
      assert Allows(s, key, value);
    }
  }

  ghost function Pick(s: Doc, key: string): (value: string)
    requires WellFormedSelector(s) && !Clash(s, key) && (Pinned(s, key) || Required(s, key, "Exists"))
    ensures Allows(s, key, value)
  {
    AllowedExists(s, key);
    var value :| Allows(s, key, value);
    value
  }

  function KeyOf(v: Value): string {
    if v.Map? then StringField(v.fields, "key") else ""
  }

  ghost function NeededKeys(s: Doc): set<string> {
    MapField(s, "matchLabels").Keys
    + (set v | v in ListField(s, "matchExpressions") && (Asks(v, KeyOf(v), "In") || Asks(v, KeyOf(v), "Exists"))
       :: KeyOf(v))
  }

  lemma {:induction false} NeededKeysExact(s: Doc, key: string)
    ensures key in NeededKeys(s) <==> Pinned(s, key) || Required(s, key, "Exists")
  {
  }

  lemma {:induction false} MatchHasNoClash(s: Doc, labels: Labels, key: string)
    requires WellFormedSelector(s) && Matches(s, labels)
    ensures !Clash(s, key)
  {
    hide WellFormedSelector;
    if Pinned(s, key) || Required(s, key, "Exists") {
      if key in MapField(s, "matchLabels") {
        assert LabelHolds(s, key, labels);
      }
      assert key in labels && Allows(s, key, labels[key]);
      assert !Required(s, key, "DoesNotExist");
      if Pinned(s, key) {
        PinnedIsCandidate(s, key, labels[key]);
      }
    }
  }

  lemma {:induction false} PinnedIsCandidate(s: Doc, key: string, value: string)
    requires Pinned(s, key) && Allows(s, key, value)
    ensures value in Candidates(s, key)
  {
    if key !in MapField(s, "matchLabels") {
      var v :| v in ListField(s, "matchExpressions") && Asks(v, key, "In");
      InFlatMap(ListField(s, "matchExpressions"), InValues(key), value);
      assert value in InValues(key)(v);
    }
  }

  lemma {:induction false} NoClashMatches(s: Doc)
    requires WellFormedSelector(s) && !SelectsNothing(s)
    ensures exists labels: Labels :: Matches(s, labels)
  {
    hide Clash, Pinned, Required;
    forall key ensures key in NeededKeys(s) <==> Pinned(s, key) || Required(s, key, "Exists") {
      NeededKeysExact(s, key);
    }
    var labels: Labels := map key | key in NeededKeys(s) :: Pick(s, key);
    forall k | k in MapField(s, "matchLabels") ensures LabelHolds(s, k, labels) {
      assert Allows(s, k, labels[k]);
    }
    forall v | v in ListField(s, "matchExpressions") && v.Map? ensures RequirementHolds(v.fields, labels) {
      PickedHolds(s, v, labels);
    }
    assert Matches(s, labels);
  }

  lemma {:induction false} PickedHolds(s: Doc, v: Value, labels: Labels)
    requires WellFormedSelector(s) && v in ListField(s, "matchExpressions") && v.Map?
    requires forall key :: key in labels <==> Pinned(s, key) || Required(s, key, "Exists")
    requires forall key :: key in labels ==> Allows(s, key, labels[key]) && !Clash(s, key)
    ensures RequirementHolds(v.fields, labels)
  {
    hide Clash, Pinned, Required, WellFormedSelector;
    var key, operator := StringField(v.fields, "key"), StringField(v.fields, "operator");
    assert WellFormedRequirement(v) by {
      ItsRequirement(s, v);
    }
    RequirementAsks(s, v);
    if operator == "DoesNotExist" && key in labels {
      NeededHasNoDenial(s, key);
    }
  }

  lemma {:induction false} ItsRequirement(s: Doc, v: Value)
    requires WellFormedSelector(s) && v in ListField(s, "matchExpressions")
    ensures WellFormedRequirement(v)
  {
  }

  lemma {:induction false} RequirementAsks(s: Doc, v: Value)
    requires v in ListField(s, "matchExpressions") && v.Map?
    ensures var key, operator := StringField(v.fields, "key"), StringField(v.fields, "operator");
            && Asks(v, key, operator) && Required(s, key, operator) && (operator == "In" ==> Pinned(s, key))
  {
    var key, operator := StringField(v.fields, "key"), StringField(v.fields, "operator");
    assert Asks(v, key, operator);
  }

  lemma {:induction false} NeededHasNoDenial(s: Doc, key: string)
    requires !Clash(s, key) && (Pinned(s, key) || Required(s, key, "Exists"))
    ensures !Required(s, key, "DoesNotExist")
  {
  }

  /** A well-formed selector matches no label set exactly when it contradicts itself on some key. */
  lemma {:induction false} SelectsNothingExact(s: Doc)
    requires WellFormedSelector(s)
    ensures SelectsNothing(s) <==> forall labels: Labels :: !Matches(s, labels)
  {
    hide Clash, Matches, WellFormedSelector;
    if SelectsNothing(s) {
      var key :| Clash(s, key);
      forall labels: Labels ensures !Matches(s, labels) {
        if Matches(s, labels) {
          MatchHasNoClash(s, labels, key);
        }
      }
    } else {
      NoClashMatches(s);
    }
  }
}
