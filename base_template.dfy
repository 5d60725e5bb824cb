/**
 * templates/base.py: what every template shares, namely the required-field
 * check and the default validation, which accepts a mapping as it is.
 */
module BaseTemplate {
  import opened Wrappers
  import opened Values
  import opened Errors

  /** `a` is `b` with some elements left out, the rest kept in their order. */
  predicate Subsequence(a: seq<string>, b: seq<string>)
    decreases |b|
  {
    a == [] || (b != [] && if a[0] == b[0] then Subsequence(a[1..], b[1..]) else Subsequence(a, b[1..]))
  }

  /**
   * `[field for field in fields if field not in requirements]`: exactly the
   * listed fields that are not keys of the mapping.
   */
  function MissingFrom(requirements: Mapping, fields: seq<string>): (missing: seq<string>)
    ensures forall f :: f in missing <==> f in fields && f !in requirements
    ensures |missing| <= |fields|
    ensures (forall f :: f in fields ==> f !in requirements) ==> missing == fields
  {
    if fields == [] then []
    else
      var rest := MissingFrom(requirements, fields[1..]);
      assert fields == [fields[0]] + fields[1..];
      if fields[0] in requirements then rest else [fields[0]] + rest
  }

  /** The missing fields keep the order in which they are listed. */
  lemma {:induction false} MissingKeepsOrder(requirements: Mapping, fields: seq<string>)
    ensures Subsequence(MissingFrom(requirements, fields), fields)
    decreases |fields|
  {
    if fields != [] {
      var rest := MissingFrom(requirements, fields[1..]);
      MissingKeepsOrder(requirements, fields[1..]);
      if fields[0] in requirements {
        assert rest == [] || rest[0] != fields[0] by {
          if rest != [] { assert rest[0] in rest; }
        }
      } else {
        assert ([fields[0]] + rest)[1..] == rest;
      }
    }
  }

  /**
   * Each absent field is reported as often as it is listed, a present one
   * never; with the order this pins the list down.
   */
  lemma {:induction false} MissingCounts(requirements: Mapping, fields: seq<string>)
    ensures forall f ::
      multiset(MissingFrom(requirements, fields))[f] == if f in requirements then 0 else multiset(fields)[f]
    decreases |fields|
  {
    if fields != [] {
      MissingCounts(requirements, fields[1..]);
      assert fields == [fields[0]] + fields[1..];
    }
  }

  /** With "b" present, fields ["a", "b", "c"] report ["a", "c"], in that order. */
  lemma MissingInOrder()
    ensures MissingFrom(map["b" := Null], ["a", "b", "c"]) == ["a", "c"]
  {
    var req: Mapping := map["b" := Null];
    assert ["a", "b", "c"][1..] == ["b", "c"] && ["b", "c"][1..] == ["c"] && ["c"][1..] == [];
    assert MissingFrom(req, ["c"]) == ["c"];
  }

  /**
   * `_ensure_fields`: raises exactly when some listed field is not a key
   * of the mapping, naming the template and every missing field in order.
   */
  function EnsureFields(templateName: string, requirements: Mapping, fields: seq<string>): (r: Option<Error>)
    ensures r.Some? <==> exists f :: f in fields && f !in requirements
    ensures r.Some? ==> r.value == MissingFields(templateName, MissingFrom(requirements, fields))
  {
    var missing := MissingFrom(requirements, fields);
    assert (exists f :: f in fields && f !in requirements) ==> missing != [] by {
      if exists f :: f in fields && f !in requirements {
        var f :| f in fields && f !in requirements;
        assert f in missing;
      }
    }
    assert missing != [] ==> missing[0] in missing;
    if missing != [] then Some(MissingFields(templateName, missing)) else None
  }

  /** Presence is key membership: a key mapped to None or to "" is present. */
  lemma {:induction false} PresenceIsMembership(templateName: string, requirements: Mapping, fields: seq<string>, empty: Value)
    requires forall f :: f in fields ==> f in requirements
    requires !Truthy(empty)
    ensures forall f :: f in fields ==> EnsureFields(templateName, requirements[f := empty], fields).None?
  {
    forall f | f in fields ensures EnsureFields(templateName, requirements[f := empty], fields).None? {
      assert forall g :: g in fields ==> g in requirements[f := empty];
    }
  }

  /** The error text names the template and joins the missing fields with ", ". */
  lemma MissingFieldsMessage(templateName: string, requirements: Mapping, fields: seq<string>)
    requires EnsureFields(templateName, requirements, fields).Some?
    ensures Message(EnsureFields(templateName, requirements, fields).value) ==
      "Missing required fields for template '" + templateName + "': " +
      Text.Join(MissingFrom(requirements, fields), ", ")
  {
  }

  /** The default `validate_requirements`: the mapping is returned as given. */
  function ValidateRequirements(requirements: Mapping): (r: Result<Mapping, Error>)
    ensures r.Success? && r.value == requirements
  {
    Success(requirements)
  }
}
