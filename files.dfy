/** File names: the avatar listing keeps image files, and uploaded
    firmware and dumps are stored under a name built from the controller,
    the kind of file and a timestamp. */
module Files {
  import opened Json

  /** The extensions of `/\.(png|jpg|jpeg|svg|gif)$/i`. */
  const ImageExtensions: set<string> := {"png", "jpg", "jpeg", "svg", "gif"}

  /** The name ends with a dot and an image extension, in any letter case.
      A regular expression without the `u` flag folds only ASCII letters
      onto ASCII letters, which is what `Lower` does. */
  predicate IsImageFile(name: string)
  {
    exists e :: e in ImageExtensions && EndsWith(Lower(name), "." + e)
  }

  /** `files.filter(file => /\.(png|jpg|jpeg|svg|gif)$/i.test(file))` */
  function ImageFiles(files: seq<string>): (r: seq<string>)
    ensures |r| <= |files|
    ensures forall f :: f in r <==> f in files && IsImageFile(f)
  {
    if files == [] then []
    else (if IsImageFile(files[0]) then [files[0]] else []) + ImageFiles(files[1..])
  }

  /** The filter keeps the directory order: filtering a listing piecewise
      and joining the pieces is filtering the whole listing. */
  lemma {:induction false} ImageFilesAppend(a: seq<string>, b: seq<string>)
    ensures ImageFiles(a + b) == ImageFiles(a) + ImageFiles(b)
  {
    if a == [] {
      assert a + b == b;
    } else {
      assert (a + b)[0] == a[0] && (a + b)[1..] == a[1..] + b;
      ImageFilesAppend(a[1..], b);
    }
  }

  /** Filtering twice is filtering once. */
  lemma {:induction false} ImageFilesIdempotent(files: seq<string>)
    ensures ImageFiles(ImageFiles(files)) == ImageFiles(files)
  {
    if files != [] {
      var head := if IsImageFile(files[0]) then [files[0]] else [];
      ImageFilesIdempotent(files[1..]);
      ImageFilesAppend(head, ImageFiles(files[1..]));
      if IsImageFile(files[0]) {
        assert ImageFiles(head) == head by {
          assert head[1..] == [];
        }
      }
    }
  }

  lemma UpperCaseExtensionIsImage()
    ensures IsImageFile("A.PNG") && !IsImageFile("a.png.txt")
  {
    var n := "A.PNG";
    assert Lower(n) == "a.png";
    assert EndsWith(Lower(n), "." + "png");
    var m := "a.png.txt";
    assert Lower(m) == m;
    forall e | e in ImageExtensions ensures !EndsWith(m, "." + e) {
      assert m[|m| - 1] == 't';
    }
  }

  // ---------------------------------------------------------------------
  // generateFilename(controller, type, ext)
  // ---------------------------------------------------------------------

  /** The characters of `/[-T:.Z]/g`. */
  predicate IsStampSeparator(c: char)
  {
    c == '-' || c == 'T' || c == ':' || c == '.' || c == 'Z'
  }

  /** `iso.replace(/[-T:.Z]/g, '')` */
  function StripStamp(s: string): (r: string)
    ensures |r| <= |s|
    ensures forall i :: 0 <= i < |r| ==> !IsStampSeparator(r[i])
  {
    if s == [] then []
    else (if IsStampSeparator(s[0]) then [] else [s[0]]) + StripStamp(s[1..])
  }

  lemma {:induction false} StripStampAppend(a: string, b: string)
    ensures StripStamp(a + b) == StripStamp(a) + StripStamp(b)
  {
    if a == [] {
      assert a + b == b;
    } else {
      assert (a + b)[0] == a[0] && (a + b)[1..] == a[1..] + b;
      StripStampAppend(a[1..], b);
    }
  }

  predicate IsDigit(c: char)
  {
    '0' <= c <= '9'
  }

  predicate AllDigits(s: string)
  {
    forall i :: 0 <= i < |s| ==> IsDigit(s[i])
  }

  lemma {:induction false} StripStampKeepsDigits(s: string)
    requires AllDigits(s)
    ensures StripStamp(s) == s
  {
    if s != [] {
      StripStampKeepsDigits(s[1..]);
    }
  }

  /** The positions of the separators in `YYYY-MM-DDTHH:mm:ss.sssZ`. */
  predicate IsStampSeparatorPosition(i: int)
  {
    i == 4 || i == 7 || i == 10 || i == 13 || i == 16 || i == 19 || i == 23
  }

  /** The shape of `Date.prototype.toISOString` for years 0 to 9999. */
  predicate IsoTimestamp(s: string)
  {
    && |s| == 24
    && s[4] == '-' && s[7] == '-' && s[10] == 'T' && s[13] == ':' && s[16] == ':' && s[19] == '.' && s[23] == 'Z'
    && forall i :: 0 <= i < 24 && !IsStampSeparatorPosition(i) ==> IsDigit(s[i])
  }

  /** `s[k..m]` is digits and `s[m]` a separator: the stripped rest starts
      with the digits. */
  lemma PeelField(s: string, k: int, m: int)
    requires 0 <= k <= m < |s| && AllDigits(s[k..m]) && IsStampSeparator(s[m])
    ensures StripStamp(s[k..]) == s[k..m] + StripStamp(s[m + 1..])
  {
    assert s[k..] == s[k..m] + ([s[m]] + s[m + 1..]);
    StripStampAppend(s[k..m], [s[m]] + s[m + 1..]);
    StripStampAppend([s[m]], s[m + 1..]);
    StripStampKeepsDigits(s[k..m]);
    assert StripStamp([s[m]]) == [] by {
      assert [s[m]][1..] == [];
    }
  }

  lemma FieldDigits(s: string, k: int, m: int)
    requires IsoTimestamp(s) && 0 <= k <= m <= 24
    requires forall i :: k <= i < m ==> !IsStampSeparatorPosition(i)
    ensures AllDigits(s[k..m])
  {
    forall i | 0 <= i < m - k ensures IsDigit(s[k..m][i]) {
      assert s[k..m][i] == s[k + i];
    }
  }

  /** The timestamp of an ISO string keeps its seventeen digits, in order. */
  lemma IsoStampDigits(s: string)
    requires IsoTimestamp(s)
    ensures StripStamp(s) == s[0..4] + (s[5..7] + (s[8..10] + (s[11..13] + (s[14..16] + (s[17..19] + (s[20..23] + []))))))
    ensures |StripStamp(s)| == 17 && AllDigits(StripStamp(s))
  {
    FieldDigits(s, 0, 4);
    FieldDigits(s, 5, 7);
    FieldDigits(s, 8, 10);
    assert s[0..] == s;
    PeelField(s, 0, 4);
    PeelField(s, 5, 7);
    PeelField(s, 8, 10);
    IsoStampTime(s);
  }

  /** The time part of an ISO string keeps its nine digits, in order. */
  lemma IsoStampTime(s: string)
    requires IsoTimestamp(s)
    ensures StripStamp(s[11..]) == s[11..13] + (s[14..16] + (s[17..19] + (s[20..23] + [])))
    ensures AllDigits(s[0..4]) && AllDigits(s[5..7]) && AllDigits(s[8..10]) && AllDigits(s[11..13])
      && AllDigits(s[14..16]) && AllDigits(s[17..19]) && AllDigits(s[20..23])
  {
    FieldDigits(s, 0, 4);
    FieldDigits(s, 5, 7);
    FieldDigits(s, 8, 10);
    FieldDigits(s, 11, 13);
    FieldDigits(s, 14, 16);
    FieldDigits(s, 17, 19);
    FieldDigits(s, 20, 23);
    PeelField(s, 11, 13);
    PeelField(s, 14, 16);
    PeelField(s, 17, 19);
    PeelField(s, 20, 23);
    assert s[24..] == [];
  }

  /** Different ISO strings give different timestamps. */
  lemma IsoStampInjective(s: string, t: string)
    requires IsoTimestamp(s) && IsoTimestamp(t) && s != t
    ensures StripStamp(s) != StripStamp(t)
  {
    IsoStampDigits(s);
    IsoStampDigits(t);
    var i :| 0 <= i < 24 && s[i] != t[i];
    assert !IsStampSeparatorPosition(i);
    var k := if i < 4 then i else if i < 7 then i - 1 else if i < 10 then i - 2 else if i < 13 then i - 3
      else if i < 16 then i - 4 else if i < 19 then i - 5 else i - 6;
    assert StripStamp(s)[k] == s[i] && StripStamp(t)[k] == t[i];
  }

  /** `` `${controller}_${type}_${timestamp}${ext}` `` with the clock's ISO
      string passed in. */
  function GenerateFilename(controller: string, kind: string, ext: string, iso: string): (r: string)
    ensures StartsWith(r, controller + "_" + kind + "_") && EndsWith(r, ext)
    ensures |r| == |controller| + |kind| + 2 + |StripStamp(iso)| + |ext|
  {
    controller + "_" + kind + "_" + StripStamp(iso) + ext
  }

  /** For an ISO string the name is the controller, the kind, then seventeen
      digits, then the extension. */
  lemma GeneratedFilenameShape(controller: string, kind: string, ext: string, iso: string)
    requires IsoTimestamp(iso)
    ensures var n := GenerateFilename(controller, kind, ext, iso);
      var k := |controller| + |kind| + 2;
      && |n| == k + 17 + |ext|
      && n[..k] == controller + "_" + kind + "_"
      && AllDigits(n[k..k + 17])
      && n[k + 17..] == ext
  {
    IsoStampDigits(iso);
    var n := GenerateFilename(controller, kind, ext, iso);
    var p := controller + "_" + kind + "_";
    assert n == p + StripStamp(iso) + ext;
    assert n[|p|..|p| + 17] == StripStamp(iso);
  }

  /** Two uploads for the same controller and kind at different instants get
      different names. */
  lemma FilenamesDifferByInstant(controller: string, kind: string, ext: string, iso1: string, iso2: string)
    requires IsoTimestamp(iso1) && IsoTimestamp(iso2) && iso1 != iso2
    ensures GenerateFilename(controller, kind, ext, iso1) != GenerateFilename(controller, kind, ext, iso2)
  {
    IsoStampInjective(iso1, iso2);
    IsoStampDigits(iso1);
    IsoStampDigits(iso2);
    var p := controller + "_" + kind + "_";
    var n1 := GenerateFilename(controller, kind, ext, iso1);
    var n2 := GenerateFilename(controller, kind, ext, iso2);
    assert n1 == p + StripStamp(iso1) + ext && n2 == p + StripStamp(iso2) + ext;
    assert n1[|p|..|p| + 17] == StripStamp(iso1);
    assert n2[|p|..|p| + 17] == StripStamp(iso2);
  }
}
