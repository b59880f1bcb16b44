/** The user and group records the client keeps, and the three mappers
    that build them from REST rows: `processUserData`, the active-users
    mapper and the groups mapper of the chat page. */
module Users {
  import opened Base

  const API_URL := "http://localhost:8080/KJN/chatting/app"

  /** The `image` object of a REST row: its id and, possibly, a download
      URL. */
  datatype RawImage = RawImage(id: Scalar, downloadUrl: Option<string>)

  /** A user row as the server sends it. `online` and `status` may be
      missing or null (`None`). */
  datatype RawUser = RawUser(
    id: Scalar,
    username: string,
    email: string,
    online: Option<bool>,
    status: Option<string>,
    image: Option<RawImage>)

  /** A group row as the server sends it. */
  datatype RawGroup = RawGroup(id: Scalar, groupname: string, image: Option<RawImage>)

  /** An image reference with its id rendered as a string. */
  datatype ImageRef = ImageRef(id: string, downloadUrl: Option<string>)

  /** A user record (`MyUser`) as the client stores it: the id is a string. */
  datatype UserRecord = UserRecord(
    id: string,
    username: string,
    email: string,
    online: bool,
    status: string,
    image: Option<ImageRef>)

  /** A group record as the groups mapper builds it. */
  datatype GroupRecord = GroupRecord(id: string, groupname: string, image: Option<ImageRef>)

  /** `processUserData`: ids rendered as strings, `online ?? true`,
      `status ?? "active"`, the image's id rendered and its URL copied. */
  function ProcessUserData(data: RawUser): UserRecord {
    UserRecord(
      Render(data.id),
      data.username,
      data.email,
      if data.online.Some? then data.online.value else true,
      if data.status.Some? then data.status.value else "active",
      if data.image.Some? then Some(ImageRef(Render(data.image.value.id), data.image.value.downloadUrl)) else None)
  }

  /** The download URL the chat page falls back to for an image whose row
      carries none. */
  function FallbackImageUrl(id: Scalar): string {
    API_URL + "/users/image/download/" + Render(id)
  }

  /** The image mapping shared by the active-users and groups mappers:
      `downloadUrl || <fallback>`. */
  function MapImage(image: Option<RawImage>): Option<ImageRef> {
    if image.Some? then
      Some(ImageRef(Render(image.value.id), Some(TextOr(image.value.downloadUrl, FallbackImageUrl(image.value.id)))))
    else None
  }

  /** The active-users mapper of the chat page: like `processUserData` but
      with `online ?? false` and a fallback image URL. */
  function MapActiveUser(user: RawUser): UserRecord {
    UserRecord(
      Render(user.id),
      user.username,
      user.email,
      if user.online.Some? then user.online.value else false,
      if user.status.Some? then user.status.value else "active",
      MapImage(user.image))
  }

  /** The groups mapper of the chat page. */
  function MapGroup(group: RawGroup): GroupRecord {
    GroupRecord(Render(group.id), group.groupname, MapImage(group.image))
  }

  /** `processUserData` copies the name and e-mail, renders the id, keeps a
      present `online` or `status` (even `false` or ""), and defaults a
      missing one to `true` and "active". */
  lemma ProcessUserDataDefaults(data: RawUser)
    ensures var u := ProcessUserData(data);
      && u.id == Render(data.id) && u.username == data.username && u.email == data.email
      && (data.online.None? ==> u.online) && (data.online.Some? ==> u.online == data.online.value)
      && (data.status.None? ==> u.status == "active") && (data.status.Some? ==> u.status == data.status.value)
      && (u.image.None? <==> data.image.None?)
      && (data.image.Some? ==> u.image.value.id == Render(data.image.value.id)
                               && u.image.value.downloadUrl == data.image.value.downloadUrl)
  {
  }

  /** The two user mappers agree on everything but presence and image URLs:
      a row without `online` is online for `processUserData` and offline for
      the active-users list. */
  lemma UserMappersDisagreeOnPresence(data: RawUser)
    ensures var p := ProcessUserData(data);
      var a := MapActiveUser(data);
      && p.id == a.id && p.username == a.username && p.email == a.email && p.status == a.status
      && (p.online == a.online <==> data.online.Some?)
      && (p.image.None? <==> a.image.None?)
  {
  }

  /** The active-users and groups mappers always give an image a download
      URL, and the URL is the row's own whenever that is non-empty. */
  lemma MappedImagesHaveUrls(image: Option<RawImage>)
    ensures var r := MapImage(image);
      && (r.Some? <==> image.Some?)
      && (r.Some? ==> r.value.downloadUrl.Some?)
      && (image.Some? && Filled(image.value.downloadUrl) ==> r.value.downloadUrl == image.value.downloadUrl)
      && (image.Some? && !Filled(image.value.downloadUrl) ==> r.value.downloadUrl == Some(FallbackImageUrl(image.value.id)))
  {
  }
}
