/** The function declarations offered to the language model: one constant table
    of three entries, each a name, a description and a JSON-schema object of
    parameters (its properties and the required ones). */
module Tools {
  import opened Values

  datatype Declaration = Declaration(name: string, description: string, properties: map<string, Json>, required: seq<string>)

  /** The five booking states the list call accepts. */
  const StatusValues: seq<string> := ["upcoming", "recurring", "past", "cancelled", "unconfirmed"]

  const EmailProperty: Json := JObj(map["type" := JStr("string"), "format" := JStr("email")])
  const StringProperty: Json := JObj(map["type" := JStr("string")])
  const StatusProperty: Json :=
    JObj(map["type" := JStr("string"),
             "enum" := JArr([JStr("upcoming"), JStr("recurring"), JStr("past"), JStr("cancelled"), JStr("unconfirmed")])])

  /** `FUNCTIONS`. */
  const Functions: seq<Declaration> := [
    Declaration("list_bookings", "List bookings for a user by email",
                map["user_email" := EmailProperty, "status" := StatusProperty],
                []),
    Declaration("create_booking", "Create a new booking using cal.com",
                map["start_time" := StringProperty, "customer_name" := StringProperty, "customer_email" := EmailProperty],
                ["start_time", "customer_name", "customer_email"]),
    Declaration("cancel_booking", "Cancel an existing booking by booking id",
                map["booking_id" := StringProperty],
                ["booking_id"])
  ]

  function Strings(xs: seq<string>): (r: seq<Json>)
    ensures |r| == |xs| && forall i | 0 <= i < |xs| :: r[i] == JStr(xs[i])
  {
    if xs == [] then [] else [JStr(xs[0])] + Strings(xs[1..])
  }

  /** A declaration as the dict sent to the model. */
  function Wire(d: Declaration): Json {
    JObj(map["name" := JStr(d.name),
             "description" := JStr(d.description),
             "parameters" := JObj(map["type" := JStr("object"),
                                      "properties" := JObj(d.properties),
                                      "required" := JArr(Strings(d.required))])])
  }

  /** The table as the list sent to the model. */
  function WireAll(ds: seq<Declaration>): (r: Json)
    ensures r.JArr? && |r.items| == |ds| && forall i | 0 <= i < |ds| :: r.items[i] == Wire(ds[i])
  {
    if ds == [] then JArr([]) else JArr([Wire(ds[0])] + WireAll(ds[1..]).items)
  }

  function Names(ds: seq<Declaration>): (r: seq<string>)
    ensures |r| == |ds| && forall i | 0 <= i < |ds| :: r[i] == ds[i].name
  {
    if ds == [] then [] else [ds[0].name] + Names(ds[1..])
  }

  /** The declaration named `name`, the first one when names repeat. */
  function Find(ds: seq<Declaration>, name: string): (r: Option<Declaration>)
    ensures r.Some? <==> name in Names(ds)
    ensures r.Some? ==> r.value in ds && r.value.name == name
  {
    if ds == [] then None else if ds[0].name == name then Some(ds[0]) else Find(ds[1..], name)
  }

  /** Exactly three declarations, with three distinct names. */
  lemma ThreeDistinctNames()
    ensures Names(Functions) == ["list_bookings", "create_booking", "cancel_booking"]
    ensures forall i, j | 0 <= i < j < |Functions| :: Functions[i].name != Functions[j].name
  {
  }

  /** The list call requires nothing and restricts `status` to the five booking states. */
  lemma ListBookingsDeclaration()
    ensures Find(Functions, "list_bookings") == Some(Functions[0])
    ensures Functions[0].required == []
    ensures Functions[0].properties.Keys == {"user_email", "status"}
    ensures Functions[0].properties["status"].fields["enum"] == JArr(Strings(StatusValues))
  {
    assert Strings(StatusValues) == [JStr("upcoming"), JStr("recurring"), JStr("past"), JStr("cancelled"), JStr("unconfirmed")];
  }

  /** Every required parameter of every declaration is a declared property. */
  lemma RequiredAreDeclared()
    ensures forall d, r | d in Functions && r in d.required :: r in d.properties
  {
  }

  /** The create call requires the start time and the customer's name and email. */
  lemma CreateBookingDeclaration()
    ensures Find(Functions, "create_booking") == Some(Functions[1])
    ensures Functions[1].required == ["start_time", "customer_name", "customer_email"]
    ensures Functions[1].properties.Keys == {"start_time", "customer_name", "customer_email"}
  {
  }

  /** The cancel call requires `booking_id`, its only property. */
  lemma CancelBookingDeclaration()
    ensures Find(Functions, "cancel_booking") == Some(Functions[2])
    ensures Functions[2].required == ["booking_id"] && Functions[2].properties.Keys == {"booking_id"}
  {
  }
}
