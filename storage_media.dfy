/** infrastructure/src/storage/media.rs: the `Bucket` made from the output of
    an S3 CreateBucket call, whose name is the returned location with every
    '/' removed. */
module StorageMedia {
  import opened Wrappers

  datatype Bucket = Bucket(name: string)

  const MissingLocation := "None CreateBucketOutput.name"

  /** `location.replace("/", "")`. */
  function StripSlashes(s: string): string
  {
    if s == [] then []
    else (if s[0] == '/' then [] else [s[0]]) + StripSlashes(s[1..])
  }

  /** `TryFrom<CreateBucketOutput> for Bucket`, on the output's location:
      no location is an error; otherwise the name is the location without
      its slashes. */
  function FromLocation(location: Option<string>): (r: Result<Bucket>)
    ensures location.None? <==> r.Err?
    ensures r.Err? ==> r.error == MissingLocation
    ensures r.Ok? ==> r.value.name == StripSlashes(location.value)
    ensures r.Ok? ==> '/' !in r.value.name
    ensures r.Ok? ==> multiset(r.value.name) == multiset(location.value)['/' := 0]
  {
    match location
    case None => Err(MissingLocation)
    case Some(l) =>
      StripNoSlash(l);
      StripCounts(l);
      Ok(Bucket(StripSlashes(l)))
  }

  /** No '/' survives. */
  lemma {:induction false} StripNoSlash(s: string)
    ensures '/' !in StripSlashes(s)
  {
    if s != [] {
      StripNoSlash(s[1..]);
    }
  }

  /** Every other character survives as often as it occurs: the result is
      the input's multiset with the slashes taken out. */
  lemma {:induction false} StripCounts(s: string)
    ensures multiset(StripSlashes(s)) == multiset(s)['/' := 0]
  {
    if s != [] {
      StripCounts(s[1..]);
      assert s == [s[0]] + s[1..];
      assert multiset(s) == multiset([s[0]]) + multiset(s[1..]);
    }
  }

  /** Stripping works piecewise: the stripped text of a concatenation is
      the concatenation of the stripped parts, so the kept characters stay
      in their original order. */
  lemma {:induction false} StripAppend(a: string, b: string)
    ensures StripSlashes(a + b) == StripSlashes(a) + StripSlashes(b)
  {
    if a == [] {
      assert a + b == b;
    } else {
      assert (a + b)[1..] == a[1..] + b;
      StripAppend(a[1..], b);
    }
  }

  /** A one-character location keeps its character unless it is '/'. */
  lemma StripOne(c: char)
    ensures StripSlashes([c]) == (if c == '/' then [] else [c])
  {
    assert [c][1..] == [];
  }

  /** A location without slashes is the bucket name unchanged. */
  lemma {:induction false} StripNoSlashIdentity(s: string)
    requires '/' !in s
    ensures StripSlashes(s) == s
  {
    if s != [] {
      assert '/' !in s[1..] by {
        forall i | 0 <= i < |s[1..]| ensures s[1..][i] != '/' {
          assert s[1..][i] == s[i + 1];
        }
      }
      StripNoSlashIdentity(s[1..]);
      assert s == [s[0]] + s[1..];
    }
  }

  /** Stripping twice is stripping once. */
  lemma StripIdempotent(s: string)
    ensures StripSlashes(StripSlashes(s)) == StripSlashes(s)
  {
    StripNoSlash(s);
    StripNoSlashIdentity(StripSlashes(s));
  }

  /** The name is shorter than the location by exactly its number of slashes. */
  lemma StripLength(s: string)
    ensures |StripSlashes(s)| == |s| - multiset(s)['/']
  {
    StripCounts(s);
    var m := multiset(s);
    assert |m| == |m['/' := 0]| + m['/'] by {
      assert m == m['/' := 0] + multiset{}['/' := m['/']];
    }
  }
}
