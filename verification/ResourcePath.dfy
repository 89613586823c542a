/** Which identifier an admin event's resource path names (`groupId`, `userId`). */
module ResourcePath {
  import opened Wrappers
  import Text

  /** A null path is None; `blank` is the platform's notion of a string of white space. */
  function GroupId(blank: string -> bool, resourceType: string, path: Option<string>): Option<string> {
    if path.None? then None
    else
      var segments := Text.Split(path.value);
      if resourceType == "GROUP" && |segments| == 2 && segments[0] == "groups"
        && !blank(segments[1]) then Some(segments[1])
      else if (resourceType == "GROUP_MEMBERSHIP" || resourceType == "USER") && |segments| == 4
        && segments[0] == "users"
              && !blank(segments[1]) && segments[2] == "groups" && !blank(segments[3]) then Some(segments[3])
      else None
  }

  function UserId(blank: string -> bool, resourceType: string, path: Option<string>): Option<string> {
    if resourceType != "USER" || path.None? then None
    else
      var segments := Text.Split(path.value);
      if |segments| == 2 && segments[0] == "users" && !blank(segments[1]) then Some(segments[1]) else None
  }

  /** An identifier that can stand as one segment. */
  predicate Segment(blank: string -> bool, id: string) {
    !blank(id) && Text.SLASH !in id
  }

  ghost predicate GroupPath(blank: string -> bool, resourceType: string, path: string, id: string) {
    || (resourceType == "GROUP" && path == Text.Join(["groups", id]))
    || ((resourceType == "GROUP_MEMBERSHIP" || resourceType == "USER")
        && exists user :: Segment(blank, user) && path == Text.Join(["users", user, "groups", id]))
  }

  /** A group is read off a path exactly if the path is the one written for it. */
  lemma GroupIdExact(blank: string -> bool, resourceType: string, path: string, id: string)
    ensures GroupId(blank, resourceType, Some(path)) == Some(id) <==>
      Segment(blank, id) && GroupPath(blank, resourceType, path, id)
  {
    var segments := Text.Split(path);
    Text.JoinSplit(path);
    Text.SplitSegments(path);
    Fixed();
    if GroupId(blank, resourceType, Some(path)) == Some(id) {
      if |segments| == 2 {
        assert segments == ["groups", id] && segments[1] in segments;
      } else {
        assert segments == ["users", segments[1], "groups", id] && segments[1] in segments && segments[3] in segments;
        assert Segment(blank, segments[1]);
      }
    }
    if Segment(blank, id) && GroupPath(blank, resourceType, path, id) {
      if resourceType == "GROUP" {
        Text.SplitJoin(["groups", id]);
      } else {
        var user :| Segment(blank, user) && path == Text.Join(["users", user, "groups", id]);
        Text.SplitJoin(["users", user, "groups", id]);
      }
    }
  }

  lemma UserIdExact(blank: string -> bool, resourceType: string, path: string, id: string)
    ensures UserId(blank, resourceType, Some(path)) == Some(id) <==>
      Segment(blank, id) && resourceType == "USER" && path == Text.Join(["users", id])
  {
    var segments := Text.Split(path);
    Text.JoinSplit(path);
    Text.SplitSegments(path);
    Fixed();
    if UserId(blank, resourceType, Some(path)) == Some(id) {
      assert segments == ["users", id] && segments[1] in segments;
    }
    if Segment(blank, id) && path == Text.Join(["users", id]) {
      Text.SplitJoin(["users", id]);
    }
  }

  lemma Fixed()
    ensures Text.SLASH !in "groups" && Text.SLASH !in "users"
    ensures "GROUP" != "USER" && "GROUP" != "GROUP_MEMBERSHIP"
  {
  }
}
