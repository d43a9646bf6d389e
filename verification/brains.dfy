/** The Python-side logic of the `Brains` repository: how the rows a backend
    query returns are turned into the records the repository hands back.

    The queries themselves run on a remote backend; every operation here
    takes the response's row list (`response.data`) as its input and says
    nothing about which rows the backend chose to return.
 */
module Brains {
  import opened Wrappers
  import opened PyValues

  // Column and field names used by the public listing.
  const SubscribersKey := "number_of_subscribers"
  const DefinitionKey := "brain_definition"
  const CountKey := "count"
  const SecretsKey := "secrets"
  // Fields excluded from the payload when a brain is inserted.
  const SecretsValuesKey := "brain_secrets_values"

  /** The scalar columns the public-listing query projects. */
  const ProjectedScalars: set<string> := {"id", "name", "description", "last_update", "brain_type"}

  /** A stored brain, built from one response row. Its schema is external,
      so construction is a total wrapper over the row. */
  datatype BrainEntity = BrainEntity(fields: Row)

  /** A public brain, built from one reshaped listing row. */
  datatype PublicBrain = PublicBrain(fields: Row)

  // ---------------------------------------------------------------------------
  // Shapes a public-listing row must have
  // ---------------------------------------------------------------------------

  /** The subscriber aggregate arrives as a list whose first element is a
      dict carrying the count. */
  predicate HasCountWrapper(v: Value) {
    v.List? && |v.items| > 0 && v.items[0].Dict? && CountKey in v.items[0].fields
  }

  /** The joined definition is either falsy (no definition) or a non-empty
      list whose first element is a dict. */
  predicate HasUsableDefinition(v: Value) {
    !Truthy(v) || (v.List? && |v.items| > 0 && v.items[0].Dict?)
  }

  /** A row the public listing can reshape without raising. */
  predicate ReshapableRow(item: Row) {
    && SubscribersKey in item
    && HasCountWrapper(item[SubscribersKey])
    && DefinitionKey in item
    && HasUsableDefinition(item[DefinitionKey])
  }

  /** `pub` is the definition `orig` with its secrets emptied and every other
      field kept as it was. */
  ghost predicate SanitizedDefinition(orig: Value, pub: Value) {
    && orig.Dict?
    && pub.Dict?
    && SecretsKey in pub.fields
    && pub.fields[SecretsKey] == List([])
    && (forall k :: k != SecretsKey ==> (k in pub.fields <==> k in orig.fields))
    && (forall k :: k != SecretsKey && k in orig.fields ==> k in pub.fields && pub.fields[k] == orig.fields[k])
  }

  // ---------------------------------------------------------------------------
  // Public listing
  // ---------------------------------------------------------------------------

  /** Reshapes one row of the public-listing query: unwraps the subscriber
      count, drops a falsy definition, and otherwise keeps the first
      definition with its secrets emptied. */
  function ReshapeRow(item: Row): (r: Result<Row, PyError>)
    ensures r.Success? <==> ReshapableRow(item)
    ensures SubscribersKey !in item ==> r == Failure(KeyError)
    ensures SubscribersKey in item && item[SubscribersKey] == List([]) ==> r == Failure(IndexError)
    ensures SubscribersKey in item && HasCountWrapper(item[SubscribersKey]) && DefinitionKey !in item ==>
              r == Failure(KeyError)
    ensures r.Success? ==>
              && SubscribersKey in r.value
              && r.value[SubscribersKey] == item[SubscribersKey].items[0].fields[CountKey]
    ensures r.Success? ==> (DefinitionKey in r.value <==> Truthy(item[DefinitionKey]))
    ensures r.Success? && DefinitionKey in r.value ==>
              SanitizedDefinition(item[DefinitionKey].items[0], r.value[DefinitionKey])
    ensures r.Success? ==>
              forall k :: k != SubscribersKey && k != DefinitionKey ==> (k in r.value <==> k in item)
    ensures r.Success? ==>
              forall k :: k != SubscribersKey && k != DefinitionKey && k in item ==> k in r.value && r.value[k] == item[k]
  {
    var subscribers :- Get(item, SubscribersKey);
    var wrapper :- Index(subscribers, 0);
    var count :- Lookup(wrapper, CountKey);
    var counted := item[SubscribersKey := count];
    var definitions :- Get(counted, DefinitionKey);
    if !Truthy(definitions) then
      Success(counted - {DefinitionKey})
    else
      var first :- Index(definitions, 0);
      var sanitized :- Store(first, SecretsKey, List([]));
      Success(counted[DefinitionKey := sanitized])
  }

  /** `i` is the first row of `rows` that cannot be reshaped. */
  predicate FirstBadRow(rows: seq<Row>, i: int) {
    && 0 <= i < |rows|
    && ReshapeRow(rows[i]).Failure?
    && forall j :: 0 <= j < i ==> ReshapeRow(rows[j]).Success?
  }

  /** The public listing: one public brain per response row, in response
      order. The first row that cannot be reshaped aborts the whole listing
      with that row's error. */
  function PublicBrains(rows: seq<Row>): (r: Result<seq<PublicBrain>, PyError>)
    ensures r.Success? <==> forall i :: 0 <= i < |rows| ==> ReshapeRow(rows[i]).Success?
    ensures r.Success? ==> |r.value| == |rows|
    ensures r.Success? ==>
              forall i :: 0 <= i < |rows| ==> r.value[i] == PublicBrain(ReshapeRow(rows[i]).value)
    ensures r.Failure? ==>
              exists i :: FirstBadRow(rows, i) && ReshapeRow(rows[i]).error == r.error
  {
    if |rows| == 0 then
      Success([])
    else
      var head :- ReshapeRow(rows[0]);
      var tail :- PublicBrains(rows[1..]);
      Success([PublicBrain(head)] + tail)
  }

  /** Rows are reshaped independently: listing two batches of rows in turn is
      listing the first and then the second, and an error in the first batch
      takes precedence over one in the second. */
  lemma {:induction false} PublicBrainsAppend(a: seq<Row>, b: seq<Row>)
    ensures PublicBrains(a + b) ==
              match PublicBrains(a)
              case Failure(e) => Failure(e)
              case Success(pa) =>
                match PublicBrains(b)
                case Failure(e) => Failure(e)
                case Success(pb) => Success(pa + pb)
  {
    if |a| == 0 {
      assert a + b == b;
      assert PublicBrains(a) == Success([]);
      if PublicBrains(b).Success? {
        assert [] + PublicBrains(b).value == PublicBrains(b).value;
      }
    } else {
      assert (a + b)[0] == a[0];
      assert (a + b)[1..] == a[1..] + b;
      PublicBrainsAppend(a[1..], b);
      match ReshapeRow(a[0])
      case Failure(_) =>
      case Success(head) =>
        match PublicBrains(a[1..])
        case Failure(_) =>
        case Success(pt) =>
          match PublicBrains(b)
          case Failure(_) =>
          case Success(pb) =>
            assert [PublicBrain(head)] + (pt + pb) == ([PublicBrain(head)] + pt) + pb;
    }
  }

  /** No public brain in a listing ever carries secrets: a definition, when
      present, is a dict whose `secrets` is the empty list. */
  lemma ListingHidesSecrets(rows: seq<Row>)
    ensures PublicBrains(rows).Success? ==>
              forall i :: 0 <= i < |rows| && DefinitionKey in PublicBrains(rows).value[i].fields ==>
                var d := PublicBrains(rows).value[i].fields[DefinitionKey];
                d.Dict? && SecretsKey in d.fields && d.fields[SecretsKey] == List([])
  {
    var r := PublicBrains(rows);
    if r.Success? {
      forall i | 0 <= i < |rows| && DefinitionKey in r.value[i].fields
        ensures SanitizedDefinition(rows[i][DefinitionKey].items[0], r.value[i].fields[DefinitionKey])
      {
        assert r.value[i].fields == ReshapeRow(rows[i]).value;
      }
    }
  }

  /** A row whose definition is falsy yields a public brain with no
      `brain_definition` field at all (not one set to null), and a row with a
      definition yields one that has the field. */
  lemma ListingOmitsMissingDefinitions(rows: seq<Row>, i: int)
    requires PublicBrains(rows).Success?
    requires 0 <= i < |rows|
    ensures DefinitionKey in rows[i]
    ensures DefinitionKey !in PublicBrains(rows).value[i].fields <==> !Truthy(rows[i][DefinitionKey])
  {
    assert ReshapeRow(rows[i]).Success?;
  }

  /** The projected scalar columns reach the public brain unchanged (the
      ensures of `ReshapeRow` states this for every column other than the two
      nested ones). */
  lemma ListingKeepsScalars(rows: seq<Row>, i: int)
    requires PublicBrains(rows).Success?
    requires 0 <= i < |rows|
    ensures forall k :: k in ProjectedScalars && k in rows[i] ==>
              k in PublicBrains(rows).value[i].fields && PublicBrains(rows).value[i].fields[k] == rows[i][k]
  {
    var row := ReshapeRow(rows[i]);
    assert row.Success?;
    assert PublicBrains(rows).value[i].fields == row.value;
    forall k | k in ProjectedScalars && k in rows[i]
      ensures k in row.value && row.value[k] == rows[i][k]
    {
      ScalarsAreNotNested(k);
    }
  }

  /** No projected scalar is one of the two nested keys: the five projected
      names are at most 11 characters long, the nested keys 16 and 21. */
  lemma ScalarsAreNotNested(k: string)
    requires k in ProjectedScalars
    ensures k != SubscribersKey && k != DefinitionKey
  {
    assert |k| <= 11;
  }

  /** The listing's subscriber count is the `count` of the first element of
      the row's aggregate wrapper. The last ensures is the zero-subscriber
      instance of that fact: a wrapper holding a zero count lists zero. */
  lemma ListingUnwrapsCount(rows: seq<Row>, i: int)
    requires PublicBrains(rows).Success?
    requires 0 <= i < |rows|
    ensures HasCountWrapper(rows[i][SubscribersKey])
    ensures PublicBrains(rows).value[i].fields[SubscribersKey] ==
              rows[i][SubscribersKey].items[0].fields[CountKey]
    ensures rows[i][SubscribersKey].items[0] == Dict(map[CountKey := Int(0)]) ==>
              PublicBrains(rows).value[i].fields[SubscribersKey] == Int(0)
  {
    assert ReshapeRow(rows[i]).Success?;
  }

  // ---------------------------------------------------------------------------
  // Insert, lookups and update: "first row, or absent"
  // ---------------------------------------------------------------------------

  /** The insert payload of `create_brain`: the brain's fields without its
      definition and its secret values, which other flows store. */
  function InsertPayload(brain: Row): (p: Row)
    ensures DefinitionKey !in p && SecretsValuesKey !in p
    ensures forall k :: k != DefinitionKey && k != SecretsValuesKey ==> (k in p <==> k in brain)
    ensures forall k :: k in p ==> k in brain && p[k] == brain[k]
  {
    brain - {DefinitionKey, SecretsValuesKey}
  }

  /** `create_brain`: the entity built from the first inserted row. The row
      list is indexed without a check, so an empty response raises. */
  function CreateBrain(inserted: seq<Row>): (r: Result<BrainEntity, PyError>)
    ensures r.Failure? <==> |inserted| == 0
    ensures r.Failure? ==> r.error == IndexError
    ensures r.Success? ==> r.value.fields == inserted[0]
  {
    var row :- if |inserted| == 0 then Failure(IndexError) else Success(inserted[0]);
    Success(BrainEntity(row))
  }

  /** `get_brain_details`: absent when the response list equals `[]`,
      otherwise the entity built from its first row. */
  function GetBrainDetails(data: seq<Row>): (r: Option<BrainEntity>)
    ensures r.None? <==> |data| == 0
    ensures r.Some? ==> r.value.fields == data[0]
  {
    if data == [] then None else Some(BrainEntity(data[0]))
  }

  /** `get_brain_by_id` and `update_brain_by_id`: absent when the returned
      (selected or updated) rows have length zero, otherwise the entity built
      from the first of them. */
  function FirstRowOrAbsent(data: seq<Row>): (r: Option<BrainEntity>)
    ensures r.None? <==> |data| == 0
    ensures r.Some? ==> r.value.fields == data[0]
  {
    if |data| == 0 then None else Some(BrainEntity(data[0]))
  }

  /** The `== []` guard of `get_brain_details` and the length guard of the
      other lookups shape a response identically, and `create_brain`
      succeeds on exactly the responses they find a brain in, with the same
      entity; where they report absence it raises. */
  lemma ResultSelectionAgrees(data: seq<Row>)
    ensures GetBrainDetails(data) == FirstRowOrAbsent(data)
    ensures CreateBrain(data).ToOption() == FirstRowOrAbsent(data)
    ensures FirstRowOrAbsent(data).None? <==> CreateBrain(data) == Failure(IndexError)
  {
  }
}
