/** get_trailer: the first official trailer of a movie's video list. */
module Trailers {
  import opened Results
  import opened Text
  import opened Records
  import opened Network

  const WatchUrl := "https://www.youtube.com/watch?v="

  /** type == "Trailer" and "Official Trailer" in name. */
  predicate IsOfficialTrailer(v: Video)
  {
    v.kind == "Trailer" && HasSubstring(v.name, "Official Trailer")
  }

  /** The YouTube URL of the first official trailer, in list order. */
  function FirstTrailer(videos: seq<Video>): Option<string>
  {
    if videos == [] then None
    else if IsOfficialTrailer(videos[0]) then Some(WatchUrl + videos[0].key)
    else FirstTrailer(videos[1..])
  }

  /** FirstTrailer is absent exactly when no video is an official trailer,
      and otherwise is built from the key of one that no earlier video
      precedes as an official trailer. */
  lemma {:induction false} FirstTrailerIsFirstMatch(videos: seq<Video>)
    ensures FirstTrailer(videos).None? <==> forall i :: 0 <= i < |videos| ==> !IsOfficialTrailer(videos[i])
    ensures FirstTrailer(videos).Some? ==>
      exists i :: 0 <= i < |videos| && IsOfficialTrailer(videos[i])
        && (forall j :: 0 <= j < i ==> !IsOfficialTrailer(videos[j]))
        && FirstTrailer(videos).value == WatchUrl + videos[i].key
  {
    if videos != [] && !IsOfficialTrailer(videos[0]) {
      FirstTrailerIsFirstMatch(videos[1..]);
      if FirstTrailer(videos).Some? {
        var i :| 0 <= i < |videos[1..]| && IsOfficialTrailer(videos[1..][i])
          && (forall j :: 0 <= j < i ==> !IsOfficialTrailer(videos[1..][j]))
          && FirstTrailer(videos[1..]).value == WatchUrl + videos[1..][i].key;
        assert forall j :: 0 <= j < i + 1 ==> !IsOfficialTrailer(videos[j]) by {
          forall j | 0 <= j < i + 1 ensures !IsOfficialTrailer(videos[j]) {
            if j > 0 { assert videos[j] == videos[1..][j - 1]; }
          }
        }
      } else {
        forall i | 0 <= i < |videos| ensures !IsOfficialTrailer(videos[i]) {
          if i > 0 { assert videos[i] == videos[1..][i - 1]; }
        }
      }
    } else if videos != [] {
      assert IsOfficialTrailer(videos[0]);
    }
  }

  /** The loop of get_trailer: scan in order, return at the first match. */
  method SelectTrailer(videos: seq<Video>) returns (url: Option<string>)
    ensures url == FirstTrailer(videos)
  {
    var i := 0;
    while i < |videos|
      invariant 0 <= i <= |videos|
      invariant FirstTrailer(videos) == FirstTrailer(videos[i..])
    {
      assert videos[i..][1..] == videos[i + 1..];
      if IsOfficialTrailer(videos[i]) {
        return Some(WatchUrl + videos[i].key);
      }
      i := i + 1;
    }
    return None;
  }

  /** get_trailer(id): one request for the video list, then the scan. */
  method GetTrailer(svc: Services, id: int) returns (url: Option<string>)
    modifies svc
    ensures url == FirstTrailer(svc.data.videos(id))
    ensures svc.requests == old(svc.requests) + 1
  {
    var videos := svc.Videos(id);
    url := SelectTrailer(videos);
  }

  lemma BehindTheScenesNotOfficial()
    ensures !HasSubstring("Behind the Scenes", "Official Trailer")
  {
    var s, sub := "Behind the Scenes", "Official Trailer";
    HasSubstringAt(s, sub);
    forall i: nat ensures !OccursAt(s, sub, i) {
      if i + |sub| <= |s| {
        assert s[i..i + |sub|][0] == s[i] != 'O';
      }
    }
  }

  lemma OfficialTrailerOneIsOfficial()
    ensures HasSubstring("Official Trailer #1", "Official Trailer")
  {
    assert "Official Trailer #1"[..16] == "Official Trailer";
  }

  /** The ordering example: a teaser, a trailer not named official, then
      "Official Trailer #1", whose key is the one chosen. */
  lemma ThirdVideoChosen()
    ensures FirstTrailer([Video("Teaser", "X", "k1"), Video("Trailer", "Behind the Scenes", "k2"),
                          Video("Trailer", "Official Trailer #1", "k3")]) == Some(WatchUrl + "k3")
  {
    var vs := [Video("Teaser", "X", "k1"), Video("Trailer", "Behind the Scenes", "k2"),
               Video("Trailer", "Official Trailer #1", "k3")];
    BehindTheScenesNotOfficial();
    OfficialTrailerOneIsOfficial();
    assert vs[1..][1..] == [vs[2]];
  }
}
