/** The configuration holder: three sections read from the YAML document.
    Parsing the file is not modelled; `Load` receives the parsed top-level
    mapping. */
module Settings {
  import opened Common

  /** The top-level keys `load` reads, in the order it reads them. */
  const REQUIRED_SECTIONS: seq<string> := ["TS3Server", "Logging", "Actions"]

  /** The exception raised by looking up `keys` in `data` one after the
      other: a KeyError for the first key that is absent. */
  function FirstMissing(keys: seq<string>, data: map<string, Section>): (r: Option<Failure>)
    ensures r.None? <==> forall i :: 0 <= i < |keys| ==> keys[i] in data
    ensures r.Some? ==> exists i :: 0 <= i < |keys| && r.value == KeyError(keys[i]) && keys[i] !in data
  {
    if keys == [] then None
    else if keys[0] !in data then Some(KeyError(keys[0]))
    else FirstMissing(keys[1..], data)
  }

  /** The missing key reported is the first absent one: every key before
      it was found. */
  lemma {:induction false} FirstMissingIsFirst(keys: seq<string>, data: map<string, Section>, k: nat)
    requires k < |keys| && keys[k] !in data
    requires forall j :: 0 <= j < k ==> keys[j] in data
    ensures FirstMissing(keys, data) == Some(KeyError(keys[k]))
  {
    if k > 0 {
      FirstMissingIsFirst(keys[1..], data, k - 1);
    }
  }

  /** `load` raises exactly when one of the three sections is missing, and
      then names the first missing one in reading order. */
  lemma LoadFailsIffSectionMissing(data: map<string, Section>)
    ensures FirstMissing(REQUIRED_SECTIONS, data).None? <==>
      "TS3Server" in data && "Logging" in data && "Actions" in data
    ensures "TS3Server" !in data ==> FirstMissing(REQUIRED_SECTIONS, data) == Some(KeyError("TS3Server"))
    ensures "TS3Server" in data && "Logging" !in data ==>
      FirstMissing(REQUIRED_SECTIONS, data) == Some(KeyError("Logging"))
    ensures "TS3Server" in data && "Logging" in data && "Actions" !in data ==>
      FirstMissing(REQUIRED_SECTIONS, data) == Some(KeyError("Actions"))
  {
    if "TS3Server" !in data {
      FirstMissingIsFirst(REQUIRED_SECTIONS, data, 0);
    } else if "Logging" !in data {
      FirstMissingIsFirst(REQUIRED_SECTIONS, data, 1);
    } else if "Actions" !in data {
      FirstMissingIsFirst(REQUIRED_SECTIONS, data, 2);
    } else {
      assert forall i :: 0 <= i < |REQUIRED_SECTIONS| ==> REQUIRED_SECTIONS[i] in data;
    }
  }

  class Config {
    var ts3server: Section
    var logsection: Section
    var actions: Section
    const filename: string

    /** The part of `__init__` before its call to `load`: empty sections. */
    constructor (filename: string)
      ensures this.filename == filename
      ensures ts3server == map[] && logsection == map[] && actions == map[]
    {
      this.filename := filename;
      ts3server, logsection, actions := map[], map[], map[];
    }

    /** `load`: replaces the three sections one after the other and stops
        at the first missing one, so the sections replaced before it keep
        their new value. */
    method Load(data: map<string, Section>) returns (raised: Option<Failure>)
      modifies this
      ensures raised == FirstMissing(REQUIRED_SECTIONS, data)
      ensures ts3server == if "TS3Server" in data then data["TS3Server"] else old(ts3server)
      ensures logsection ==
        if "TS3Server" in data && "Logging" in data then data["Logging"] else old(logsection)
      ensures actions ==
        if "TS3Server" in data && "Logging" in data && "Actions" in data then data["Actions"]
        else old(actions)
    {
      LoadFailsIffSectionMissing(data);
      if "TS3Server" !in data {
        return Some(KeyError("TS3Server"));
      }
      ts3server := data["TS3Server"];
      if "Logging" !in data {
        return Some(KeyError("Logging"));
      }
      logsection := data["Logging"];
      if "Actions" !in data {
        return Some(KeyError("Actions"));
      }
      actions := data["Actions"];
      raised := None;
    }
  }
}
