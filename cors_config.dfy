/** The allowed CORS origins of the backend (backend/app/core/config.py):
    the `CORS_ORIGINS` setting, a comma-separated string by default, read as
    a list of origins. */
module CorsConfig {
  import opened Js

  /** The setting's value: a string, a list of origins, or anything else. */
  datatype Setting = Text(s: string) | Items(origins: seq<string>) | Other

  /** The default value: the four local development servers, comma-joined. */
  const DefaultOrigins := "http://localhost:5173,http://localhost:3000,http://localhost:8080,http://localhost:8888"

  /** `cors_origins_list`: a string is cut at every comma, each piece is
      stripped and blank pieces are dropped; a list is used as it is; any
      other value gives no origins. */
  function OriginsList(c: Setting): (os: seq<string>)
    ensures c.Items? ==> os == c.origins
    ensures c.Other? ==> os == []
    ensures c.Text? ==> forall i :: 0 <= i < |os| ==>
      && os[i] != "" && Trim(os[i]) == os[i] && ',' !in os[i]
  {
    match c
    case Text(s) =>
      var pieces := Split(s, ',');
      assert forall i :: 0 <= i < |pieces| ==> ',' !in pieces[i] by {
        forall i | 0 <= i < |pieces|
          ensures ',' !in pieces[i]
        {
          SplitPartsWithoutSeparator(s, ',', i);
        }
      }
      TrimNonEmptyShape(pieces, ',');
      TrimNonEmpty(pieces)
    case Items(os) => os
    case Other => []
  }

  /** An origin is listed exactly when it is the stripped, non-blank form of
      one of the comma-separated pieces. */
  lemma OriginsMembers(s: string, t: string)
    ensures t in OriginsList(Text(s)) <==> TrimsTo(Split(s, ','), t)
  {
    TrimNonEmptyMembers(Split(s, ','), t);
  }

  /** The origins keep the order of the string: the origins of `a,b` are those
      of `a` followed by those of `b`. */
  lemma OriginsOrder(a: string, b: string)
    ensures OriginsList(Text(a + "," + b)) == OriginsList(Text(a)) + OriginsList(Text(b))
  {
    SplitConcat(a, ',', b);
    TrimNonEmptyAppend(Split(a, ','), Split(b, ','));
  }

  /** `",".join(origins)`. */
  function JoinOrigins(os: seq<string>): string {
    if |os| == 0 then "" else Join(os, ',')
  }

  /** Origins that are non-blank, stripped and free of commas are read back
      from their comma-joined string unchanged, in order. */
  lemma OriginsOfJoined(os: seq<string>)
    requires forall i :: 0 <= i < |os| ==> os[i] != "" && Trim(os[i]) == os[i] && ',' !in os[i]
    ensures OriginsList(Text(JoinOrigins(os))) == os
  {
    if |os| > 0 {
      SplitJoin(os, ',');
      TrimNonEmptyKeeps(os);
    }
  }

  /** Writing the origins back as one comma-separated string and reading it
      again gives the same list. */
  lemma OriginsRoundTrip(s: string)
    ensures OriginsList(Text(JoinOrigins(OriginsList(Text(s))))) == OriginsList(Text(s))
  {
    OriginsOfJoined(OriginsList(Text(s)));
  }
}
