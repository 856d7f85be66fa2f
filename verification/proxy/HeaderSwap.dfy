/** The swap of placeholders for credentials in the header of a request. */
module HeaderSwap {
  import opened Wrappers
  import opened Text
  import opened PlaceholderIn

  datatype Field = Field(name: string, value: string)

  // ---- The header multimap: names compare without case, and a field keeps the name it has. ----

  predicate Named(f: Field, names: set<string>) {
    Lower(f.name) in names
  }

  /** The fields with none of these names, in order. */
  function Without(fields: seq<Field>, names: set<string>): (r: seq<Field>) {
    if fields == [] then []
    else if Named(fields[0], names) then Without(fields[1..], names)
    else [fields[0]] + Without(fields[1..], names)
  }

  /** The values of a name, in order. */
  function Values(fields: seq<Field>, name: string): (r: seq<string>) {
    if fields == [] then []
    else if Lower(fields[0].name) == name then [fields[0].value] + Values(fields[1..], name)
    else Values(fields[1..], name)
  }

  /** headers[name] = value: the first field of the name takes the value, the others go; without one it comes last. */
  function Set(fields: seq<Field>, name: string, value: string): (r: seq<Field>) {
    if fields == [] then [Field(name, value)]
    else if Lower(fields[0].name) == Lower(name) then
      [Field(fields[0].name, value)] + Without(fields[1..], {Lower(name)})
    else [fields[0]] + Set(fields[1..], name, value)
  }

  lemma {:induction false} WithoutHas(fields: seq<Field>, names: set<string>, f: Field)
    ensures f in Without(fields, names) <==> f in fields && !Named(f, names)
  {
    if fields == [] {
    } else {
      WithoutHas(fields[1..], names, f);
    }
  }

  lemma {:induction false} WithoutValues(fields: seq<Field>, names: set<string>, name: string)
    ensures Values(Without(fields, names), name) == if name in names then [] else Values(fields, name)
  {
    if fields == [] {
    } else {
      WithoutValues(fields[1..], names, name);
      if !Named(fields[0], names) {
        var rest := Without(fields[1..], names);
        assert ([fields[0]] + rest)[1..] == rest;
      }
    }
  }

  lemma {:induction false} WithoutTwice(fields: seq<Field>, names: set<string>, more: set<string>)
    ensures Without(Without(fields, names), more) == Without(fields, names + more)
  {
    if fields == [] {
    } else {
      WithoutTwice(fields[1..], names, more);
      if !Named(fields[0], names) {
        var rest := Without(fields[1..], names);
        assert ([fields[0]] + rest)[1..] == rest;
      }
    }
  }

  /** Setting a name gives it that one value, and leaves every other name and the order of the other fields. */
  lemma {:induction false} SetChangesOneName(fields: seq<Field>, name: string, value: string)
    ensures Values(Set(fields, name, value), Lower(name)) == [value]
    ensures forall other :: other != Lower(name) ==> Values(Set(fields, name, value), other) == Values(fields, other)
    ensures Without(Set(fields, name, value), {Lower(name)}) == Without(fields, {Lower(name)})
  {
    var r := Set(fields, name, value);
    if fields == [] {
    } else {
      var rest := if Lower(fields[0].name) == Lower(name) then Without(fields[1..], {Lower(name)})
                  else Set(fields[1..], name, value);
      assert r[1..] == rest;
      SetChangesOneName(fields[1..], name, value);
      forall other
        ensures Values(Without(fields[1..], {Lower(name)}), other) ==
                if other == Lower(name) then [] else Values(fields[1..], other)
      {
        WithoutValues(fields[1..], {Lower(name)}, other);
      }
      WithoutTwice(fields[1..], {Lower(name)}, {Lower(name)});
      assert {Lower(name)} + {Lower(name)} == {Lower(name)};
    }
  }

  lemma SetKeepsWithout(fields: seq<Field>, name: string, value: string, names: set<string>)
    requires Lower(name) in names
    ensures Without(Set(fields, name, value), names) == Without(fields, names)
  {
    SetChangesOneName(fields, name, value);
    WithoutTwice(fields, {Lower(name)}, names);
    WithoutTwice(Set(fields, name, value), {Lower(name)}, names);
    assert {Lower(name)} + names == names;
  }

  // ---- The placeholders of a request. ----

  datatype Spot = Spot(name: string, placeholder: string)

  function Spots(fields: seq<Field>): (found: seq<Spot>) {
    if fields == [] then []
    else
      var e := Extract(fields[0].value);
      (if e.Found? then [Spot(fields[0].name, e.placeholder)] else []) + Spots(fields[1..])
  }

  predicate Readable(fields: seq<Field>) {
    forall f :: f in fields ==> !Extract(f.value).Raises?
  }

  function SpotNames(found: seq<Spot>): (names: set<string>) {
    set i | 0 <= i < |found| :: Lower(found[i].name)
  }

  lemma {:induction false} SpotsAppend(fields: seq<Field>, last: Field)
    ensures Spots(fields + [last]) == Spots(fields) + Spots([last])
  {
    hide Extract;
    if fields != [] {
      SpotsAppend(fields[1..], last);
      assert (fields + [last])[1..] == fields[1..] + [last];
    } else {
      assert fields + [last] == [last];
      assert Spots([last]) == Spots([]) + Spots([last]);
    }
  }

  lemma {:induction false} HoldersAreNamed(fields: seq<Field>, f: Field)
    requires f in fields && Extract(f.value).Found?
    ensures Lower(f.name) in SpotNames(Spots(fields))
  {
    var found := Spots(fields);
    if f == fields[0] {
      assert found[0].name == f.name;
    } else {
      HoldersAreNamed(fields[1..], f);
      var rest := Spots(fields[1..]);
      var i :| 0 <= i < |rest| && Lower(rest[i].name) == Lower(f.name);
      assert found[i + |found| - |rest|] == rest[i];
    }
  }

  // ---- The exchange and the flow. ----

  /** An answer without its headers raises a KeyError that the proxy does not catch. */
  datatype Answer = Granted(credential: Field) | Refused | Unavailable | Malformed

  /** The name that urlsplit finds in the Host header, in lower case, or its ValueError. */
  datatype Authority = NoName | Name(name: string) | Invalid

  function CredentialNames(credentials: seq<Field>): (names: set<string>) {
    set i | 0 <= i < |credentials| :: Lower(credentials[i].name)
  }

  predicate Distinct(credentials: seq<Field>) {
    forall i, j :: 0 <= i < j < |credentials| ==> Lower(credentials[i].name) != Lower(credentials[j].name)
  }

  /** Every credential is the one value of its name; the other placeholder fields are gone; the rest is as it was. */
  ghost predicate Swapped(before: seq<Field>, after: seq<Field>, credentials: seq<Field>) {
    var ours := SpotNames(Spots(before)) + CredentialNames(credentials);
    && (forall i :: 0 <= i < |credentials| ==> Values(after, Lower(credentials[i].name)) == [credentials[i].value])
    && (forall name :: name in SpotNames(Spots(before)) - CredentialNames(credentials) ==> Values(after, name) == [])
    && Without(after, ours) == Without(before, ours)
  }

  /** No field that the swap kept holds a placeholder. */
  lemma SwappedHoldsNone(before: seq<Field>, after: seq<Field>, credentials: seq<Field>, f: Field)
    requires Swapped(before, after, credentials) && f in after && Lower(f.name) !in CredentialNames(credentials)
    ensures !Extract(f.value).Found? && f in before
  {
    var spots := SpotNames(Spots(before));
    if Lower(f.name) in spots {
      HasValue(after, f);
      assert false;
    } else {
      WithoutHas(after, spots + CredentialNames(credentials), f);
      WithoutHas(before, spots + CredentialNames(credentials), f);
      if Extract(f.value).Found? {
        HoldersAreNamed(before, f);
        assert false;
      }
    }
  }

  /** What the swap does to the fields, by the spelling of their names: a field that spells the header of a credential has the
      credential, and each credential has such a field; every other field was there before and spells no name of a field that
      held a placeholder; and the fields that spell neither are still there. */
  lemma SwappedByName(before: seq<Field>, after: seq<Field>, credentials: seq<Field>)
    requires Swapped(before, after, credentials)
    ensures forall i, f :: 0 <= i < |credentials| && f in after && Spells(f.name, credentials[i].name) ==>
              f.value == credentials[i].value
    ensures forall i :: 0 <= i < |credentials| ==> exists f :: f in after && Spells(f.name, credentials[i].name)
    ensures forall f :: f in after && !IsCredential(f, credentials) ==>
              f in before && forall g :: g in before && Extract(g.value).Found? ==> !Spells(f.name, g.name)
    ensures forall f :: f in before && !IsCredential(f, credentials)
                        && (forall g :: g in before && Extract(g.value).Found? ==> !Spells(f.name, g.name)) ==>
              f in after
  {
    hide Lower, Spells, Extract;
    forall i, f | 0 <= i < |credentials| && f in after && Spells(f.name, credentials[i].name)
      ensures f.value == credentials[i].value
    {
      LowerIgnoresCase(f.name, credentials[i].name);
      HasValue(after, f);
    }
    forall i | 0 <= i < |credentials|
      ensures exists f :: f in after && Spells(f.name, credentials[i].name)
    {
      var f := ValueHasField(after, Lower(credentials[i].name));
      LowerIgnoresCase(f.name, credentials[i].name);
    }
    forall f | f in after && !IsCredential(f, credentials)
      ensures f in before && forall g :: g in before && Extract(g.value).Found? ==> !Spells(f.name, g.name)
    {
      CredentialByName(f, credentials);
      KeptNamesNoHolder(before, after, credentials, f);
    }
    forall f | f in before && !IsCredential(f, credentials)
               && (forall g :: g in before && Extract(g.value).Found? ==> !Spells(f.name, g.name))
      ensures f in after
    {
      CredentialByName(f, credentials);
      NoHolderNoSpot(before, f);
      var ours := SpotNames(Spots(before)) + CredentialNames(credentials);
      WithoutHas(before, ours, f);
      WithoutHas(after, ours, f);
    }
  }

  predicate IsCredential(f: Field, credentials: seq<Field>) {
    exists i :: 0 <= i < |credentials| && Spells(f.name, credentials[i].name)
  }

  lemma CredentialByName(f: Field, credentials: seq<Field>)
    ensures IsCredential(f, credentials) <==> Lower(f.name) in CredentialNames(credentials)
  {
    hide Lower, Spells;
    forall i | 0 <= i < |credentials|
      ensures Spells(f.name, credentials[i].name) <==> Lower(f.name) == Lower(credentials[i].name)
    {
      LowerIgnoresCase(f.name, credentials[i].name);
    }
  }

  lemma KeptNamesNoHolder(before: seq<Field>, after: seq<Field>, credentials: seq<Field>, f: Field)
    requires Swapped(before, after, credentials) && f in after && Lower(f.name) !in CredentialNames(credentials)
    ensures f in before && forall g :: g in before && Extract(g.value).Found? ==> !Spells(f.name, g.name)
  {
    hide Lower, Spells, Extract;
    SwappedHoldsNone(before, after, credentials, f);
    forall g | g in before && Extract(g.value).Found?
      ensures !Spells(f.name, g.name)
    {
      HoldersAreNamed(before, g);
      HasValue(after, f);
      LowerIgnoresCase(f.name, g.name);
    }
  }

  lemma {:induction false} NoHolderNoSpot(fields: seq<Field>, f: Field)
    requires forall g :: g in fields && Extract(g.value).Found? ==> !Spells(f.name, g.name)
    ensures Lower(f.name) !in SpotNames(Spots(fields))
  {
    hide Lower, Spells, Extract;
    if fields == [] {
    } else {
      NoHolderNoSpot(fields[1..], f);
      LowerIgnoresCase(f.name, fields[0].name);
      var found, rest := Spots(fields), Spots(fields[1..]);
      forall i | 0 <= i < |found|
        ensures Lower(found[i].name) != Lower(f.name)
      {
        if |found| > |rest| {
          assert fields[0] in fields;
          assert i > 0 ==> found[i] == rest[i - 1] && Lower(rest[i - 1].name) in SpotNames(rest);
        } else {
          assert found[i] == rest[i] && Lower(rest[i].name) in SpotNames(rest);
        }
      }
    }
  }

  lemma {:induction false} ValueHasField(fields: seq<Field>, name: string) returns (f: Field)
    requires Values(fields, name) != []
    ensures f in fields && Lower(f.name) == name
  {
    hide Lower;
    if Lower(fields[0].name) == name {
      f := fields[0];
    } else {
      f := ValueHasField(fields[1..], name);
    }
  }

  lemma {:induction false} HasValue(fields: seq<Field>, f: Field)
    requires f in fields
    ensures f.value in Values(fields, Lower(f.name))
  {
    if f == fields[0] {
    } else {
      HasValue(fields[1..], f);
    }
  }

  class Flow {
    var fields: seq<Field>
    var response: Option<nat>      // the status of an answer of the proxy itself
    var stream: Option<bool>
    const scheme: string
    const host: string
    const sni: string              // empty without one
    const authority: Authority

    constructor (scheme: string, host: string, sni: string, authority: Authority, fields: seq<Field>)
      ensures this.scheme == scheme && this.host == host && this.sni == sni && this.authority == authority
      ensures this.fields == fields && response == None && stream == None
    {
      this.scheme, this.host, this.sni, this.authority := scheme, host, sni, authority;
      this.fields, response, stream := fields, None, None;
    }

    function Approved(): (name: string) {
      if sni != "" then sni else host
    }

    /** All or nothing. Unless every placeholder is authorized and their headers differ, the fields stay as they were,
        and unless a value or an answer raises an error, there is a response. `answers` is what the exchange says to
        each question in turn. */
    method RequestHeaders(reachable: bool, answers: nat -> Answer)
      returns (raised: bool, credentials: seq<Field>)
      requires response == None
      modifies this
      ensures response.Some? || raised ==> fields == old(fields)
      ensures scheme != "https" ==>
                !raised && fields == old(fields) && response == (if reachable then None else Some(403))
      ensures scheme == "https" && response == None && !raised ==> Swapped(old(fields), fields, credentials)
      ensures scheme == "https" ==>
                (response == None && !raised <==>
                 Readable(old(fields)) && (Spots(old(fields)) == [] || Authorized(|Spots(old(fields))|, answers)))
      ensures scheme == "https" && response == None && !raised ==>
                |credentials| == |Spots(old(fields))| && GrantedBy(credentials, answers)
      ensures raised ==>
                response == None && (!Readable(fields) || authority.Invalid? || exists i: nat :: answers(i).Malformed?)
      ensures !raised ==> stream == Some(response == None)
    {
      raised, credentials := false, [];
      if scheme != "https" {
        if !reachable {
          response := Some(403);
        }
      } else {
        var found;
        raised, found := Find();
        if raised {
          return;
        }
        if found != [] {
          raised, credentials := Exchange(found, answers);
          if raised {
            return;
          }
        }
      }
      stream := Some(response == None);
    }

    /** The Host header names the host of the connection, which is the name of the handshake if it has one. */
    predicate NamesConnection() {
      var approved := if sni != "" then sni else host;
      authority.Name? && Spells(authority.name, approved) && NoCapitals(authority.name)
    }

    ghost predicate Authorized(n: nat, answers: nat -> Answer) {
      NamesConnection() && GrantedTo(n, answers)
    }

    /** The first `n` questions are granted, with headers that differ by more than case. */
    ghost predicate GrantedTo(n: nat, answers: nat -> Answer) {
      && (forall i :: 0 <= i < n ==> answers(i).Granted?)
      && (forall i, j :: 0 <= i < j < n ==> !Spells(answers(i).credential.name, answers(j).credential.name))
    }

    /** The fields that hold a placeholder, in order. */
    method Find() returns (raised: bool, found: seq<Spot>)
      ensures raised <==> !Readable(fields)
      ensures !raised ==> found == Spots(fields)
    {
      raised, found := false, [];
      var i := 0;
      while i < |fields|
        invariant 0 <= i <= |fields| && Readable(fields[..i]) && found == Spots(fields[..i])
      {
        var e := Extract(fields[i].value);
        if e.Raises? {
          return true, found;
        }
        SpotsAppend(fields[..i], fields[i]);
        assert fields[..i + 1] == fields[..i] + [fields[i]];
        if e.Found? {
          found := found + [Spot(fields[i].name, e.placeholder)];
        }
        i := i + 1;
      }
      assert fields[..i] == fields;
    }

    /** swap: the exchange is asked about each placeholder in turn, and only if it grants them all do the fields change. */
    method Exchange(found: seq<Spot>, answers: nat -> Answer) returns (raised: bool, credentials: seq<Field>)
      requires response == None && found == Spots(fields) && found != []
      modifies this`fields, this`response
      ensures response.Some? || raised ==> fields == old(fields)
      ensures response == None && !raised <==> Authorized(|found|, answers)
      ensures response == None && !raised ==>
                Swapped(old(fields), fields, credentials) && |credentials| == |found| && GrantedBy(credentials, answers)
      ensures !NamesConnection() && !authority.Invalid? ==> response == Some(403)
      ensures raised ==> response == None && (authority.Invalid? || exists i: nat :: answers(i).Malformed?)
      ensures forall i :: 0 <= i < |found| && NamesConnection() && GrantedTo(i, answers) && !GrantedTo(i + 1, answers) ==>
                if answers(i).Malformed? then raised
                else response == Some(if answers(i).Unavailable? then 503 else 403)
    {
      raised, credentials := false, [];
      LowerIsTheSmallSpelling(Approved(), if authority.Name? then authority.name else "");
      hide Lower, Spells, NoCapitals, GrantedTo, Distinct, CredentialNames, Swapped;
      NothingAsked(answers);
      if authority.Invalid? {
        return true, [];
      }
      if authority != Name(Lower(Approved())) {
        response := Some(403);
        return;
      }
      var i := 0;
      while i < |found|
        invariant 0 <= i <= |found| && |credentials| == i
        invariant response == None && fields == old(fields)
        invariant GrantedBy(credentials, answers) && Distinct(credentials) && GrantedTo(i, answers) && NamesConnection()
      {
        OneAnswer(credentials, i, answers);
        match answers(i) {
          case Malformed => return true, credentials;
          case Refused =>
            response := Some(403);
            return;
          case Unavailable =>
            response := Some(503);
            return;
          case Granted(credential) =>
            if Lower(credential.name) in CredentialNames(credentials) {
              response := Some(403);
              return;
            }
            credentials := credentials + [credential];
        }
        i := i + 1;
      }
      Replace(found, credentials);
    }

    lemma NothingAsked(answers: nat -> Answer)
      ensures GrantedTo(0, answers) && Distinct([])
    {
    }

    /** One more answer goes with the ones before, or it is where the questions end. */
    lemma OneAnswer(credentials: seq<Field>, i: nat, answers: nat -> Answer)
      requires |credentials| == i && GrantedBy(credentials, answers) && Distinct(credentials) && GrantedTo(i, answers)
      ensures answers(i).Granted? && Lower(answers(i).credential.name) !in CredentialNames(credentials) <==>
              GrantedTo(i + 1, answers)
      ensures GrantedTo(i + 1, answers) ==> Distinct(credentials + [answers(i).credential])
      ensures !GrantedTo(i + 1, answers) ==>
                && (forall n :: n > i ==> !GrantedTo(n, answers))
                && (forall j: nat :: GrantedTo(j, answers) && !GrantedTo(j + 1, answers) ==> j == i)
    {
      hide Lower, Spells;
      if answers(i).Granted? {
        var name := answers(i).credential.name;
        forall k | 0 <= k < i
          ensures Lower(credentials[k].name) == Lower(name) <==> Spells(answers(k).credential.name, name)
        {
          assert answers(k) == Granted(credentials[k]);
          LowerIgnoresCase(credentials[k].name, name);
        }
      }
    }

    ghost predicate GrantedBy(credentials: seq<Field>, answers: nat -> Answer) {
      forall i :: 0 <= i < |credentials| ==> answers(i) == Granted(credentials[i])
    }

    /** Delete the fields of the placeholders, and set the credentials. */
    method Replace(found: seq<Spot>, credentials: seq<Field>)
      requires found == Spots(fields) && Distinct(credentials)
      modifies this`fields
      ensures Swapped(old(fields), fields, credentials)
    {
      ghost var before := fields;
      ghost var spots := SpotNames(found);
      ghost var ours := spots + CredentialNames(credentials);
      DeleteNames(SpotNames(found));
      WithoutTwice(before, spots, ours);
      assert spots + ours == ours;
      forall name
        ensures name in spots ==> Values(fields, name) == []
      {
        WithoutValues(before, spots, name);
      }
      SetCredentials(credentials, before, spots);
    }

    method SetCredentials(credentials: seq<Field>, ghost before: seq<Field>, ghost spots: set<string>)
      requires Distinct(credentials)
      requires Without(fields, spots + CredentialNames(credentials)) == Without(before, spots + CredentialNames(credentials))
      requires forall name :: name in spots ==> Values(fields, name) == []
      modifies this`fields
      ensures Without(fields, spots + CredentialNames(credentials)) == Without(before, spots + CredentialNames(credentials))
      ensures forall i :: 0 <= i < |credentials| ==> Values(fields, Lower(credentials[i].name)) == [credentials[i].value]
      ensures forall name :: name in spots - CredentialNames(credentials) ==> Values(fields, name) == []
    {
      ghost var ours := spots + CredentialNames(credentials);
      var i := 0;
      while i < |credentials|
        invariant 0 <= i <= |credentials|
        invariant Without(fields, ours) == Without(before, ours)
        invariant forall j :: 0 <= j < i ==> Values(fields, Lower(credentials[j].name)) == [credentials[j].value]
        invariant forall name :: name in spots - CredentialNames(credentials) ==> Values(fields, name) == []
      {
        SetChangesOneName(fields, credentials[i].name, credentials[i].value);
        SetKeepsWithout(fields, credentials[i].name, credentials[i].value, ours);
        fields := Set(fields, credentials[i].name, credentials[i].value);
        i := i + 1;
      }
    }

    /** The deletions may come in any order. */
    method DeleteNames(names: set<string>)
      modifies this`fields
      ensures fields == Without(old(fields), names)
    {
      var rest := names;
      WithoutNone(fields);
      while rest != {}
        invariant rest <= names && fields == Without(old(fields), names - rest)
      {
        var name :| name in rest;
        WithoutTwice(old(fields), names - rest, {name});
        assert names - rest + {name} == names - (rest - {name});
        fields := Without(fields, {name});
        rest := rest - {name};
      }
      assert names - rest == names;
    }
  }

  lemma {:induction false} WithoutNone(fields: seq<Field>)
    ensures forall names :: names == {} ==> Without(fields, names) == fields
  {
    if fields == [] {
    } else {
      WithoutNone(fields[1..]);
    }
  }
}
