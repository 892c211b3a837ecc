/** Sessions (frame/session/session.go): an id, an attribute map and a flag
    saying whether the session was just created. Nothing registers sessions;
    a session is a record that code holding it updates in place. */
module Sessions {
  import opened Values

  class Session {
    var id: string
    var data: map<string, Value>
    var isNew: bool

    /** `CreateNewSession` with the generated UUID passed in. */
    constructor (uuid: string)
      ensures id == uuid && data == map[] && isNew
    {
      id := uuid;
      data := map[];
      isNew := true;
    }

    /** An attribute never set, or removed, reads as nil. */
    function GetAttribute(key: string): (v: Value)
      reads this
      ensures key in data ==> v == data[key]
      ensures key !in data ==> v == Nil
    {
      Lookup(data, key)
    }

    /** Later writes to the same key replace earlier ones. */
    method SetAttribute(key: string, value: Value)
      modifies this
      ensures data == old(data)[key := value]
      ensures GetAttribute(key) == value
      ensures forall k :: k != key ==> GetAttribute(k) == old(GetAttribute(k))
      ensures id == old(id) && isNew == old(isNew)
    {
      data := data[key := value];
    }

    method RemoveAttribute(key: string)
      modifies this
      ensures data == old(data) - {key}
      ensures GetAttribute(key) == Nil
      ensures forall k :: k != key ==> GetAttribute(k) == old(GetAttribute(k))
      ensures id == old(id) && isNew == old(isNew)
    {
      data := data - {key};
    }
  }

  method CreateNewSession(uuid: string) returns (s: Session)
    ensures fresh(s)
    ensures s.id == uuid && s.data == map[] && s.isNew
  {
    s := new Session(uuid);
  }

  /** What a caller sees: set, overwrite, remove, on a fresh session. */
  method AttributeRoundTrip(uuid: string, k: string, other: string, v1: Value, v2: Value)
    requires k != other
  {
    var s := CreateNewSession(uuid);
    assert s.GetAttribute(k) == Nil;
    s.SetAttribute(k, v1);
    assert s.GetAttribute(k) == v1;
    s.SetAttribute(k, v2);
    assert s.GetAttribute(k) == v2;
    s.SetAttribute(other, v1);
    assert s.GetAttribute(k) == v2;
    s.RemoveAttribute(k);
    assert s.GetAttribute(k) == Nil && s.GetAttribute(other) == v1;
    assert s.id == uuid && s.isNew;
  }
}
