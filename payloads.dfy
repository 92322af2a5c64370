/** The payloads that BenefactorRegistration.post, CharityRegistration.post
    and Tasks.post of charities/views.py hand to their serializers, and the
    reply that follows the serializer's verdict. */
module Payloads {
  import opened Common

  /** A request-body value, as far as the views pass it along. */
  datatype Value = Null | Num(n: int) | Str(s: string)

  /** A request body or a serializer payload: field name to value. */
  type Payload = map<string, Value>

  /** `dict.get(key)`: the value, or None when the key is absent. */
  function Get(data: Payload, key: string): Value
  {
    if key in data then data[key] else Null
  }

  /** BenefactorRegistration.post: the user is always the acting user; only
      the two profile fields are taken from the request body. */
  function BenefactorRegistrationPayload(userId: nat, data: Payload): (p: Payload)
    ensures p.Keys == {"user", "experience", "free_time_per_week"}
    ensures p["user"] == Num(userId)
    ensures forall k :: k in p && k != "user" ==> p[k] == Get(data, k)
  {
    map["user" := Num(userId),
        "experience" := Get(data, "experience"),
        "free_time_per_week" := Get(data, "free_time_per_week")]
  }

  /** CharityRegistration.post: the user is always the acting user; only the
      name and the registration number are taken from the request body. */
  function CharityRegistrationPayload(userId: nat, data: Payload): (p: Payload)
    ensures p.Keys == {"user", "name", "reg_number"}
    ensures p["user"] == Num(userId)
    ensures forall k :: k in p && k != "user" ==> p[k] == Get(data, k)
  {
    map["user" := Num(userId),
        "name" := Get(data, "name"),
        "reg_number" := Get(data, "reg_number")]
  }

  /** Tasks.post: every field of the request body is kept except
      `charity_id`, which the acting user's charity overrides, because in a
      dict display the later key wins. */
  function TaskCreationPayload(data: Payload, charityId: nat): (p: Payload)
    ensures p.Keys == data.Keys + {"charity_id"}
    ensures p["charity_id"] == Num(charityId)
    ensures forall k :: k in data && k != "charity_id" ==> p[k] == data[k]
  {
    data["charity_id" := Num(charityId)]
  }

  /** Only experience and free_time_per_week of a request body reach the
      benefactor payload: any other field, a `user` field included, has no effect. */
  lemma BenefactorRegistrationIgnoresOtherFields(userId: nat, data: Payload, other: Payload)
    requires Get(data, "experience") == Get(other, "experience")
    requires Get(data, "free_time_per_week") == Get(other, "free_time_per_week")
    ensures BenefactorRegistrationPayload(userId, data) == BenefactorRegistrationPayload(userId, other)
  {
  }

  /** Only name and reg_number of a request body reach the charity payload:
      any other field, a `user` field included, has no effect. */
  lemma CharityRegistrationIgnoresOtherFields(userId: nat, data: Payload, other: Payload)
    requires Get(data, "name") == Get(other, "name")
    requires Get(data, "reg_number") == Get(other, "reg_number")
    ensures CharityRegistrationPayload(userId, data) == CharityRegistrationPayload(userId, other)
  {
  }

  /** The reply after the serializer has judged the payload: 201 when it is
      valid and saved, 400 otherwise. */
  function CreationReply(valid: bool): (r: Reply)
    ensures r == Http(HTTP_201_CREATED) <==> valid
    ensures !valid ==> r == Http(HTTP_400_BAD_REQUEST)
  {
    if valid then Http(HTTP_201_CREATED) else Http(HTTP_400_BAD_REQUEST)
  }
}
