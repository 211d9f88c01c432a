/** The records that the remote services answer with and the controller answers with.
    Every field the JSON may leave out is nullable. */
module Entities {
  import opened Kotlin

  /** One release of a source-code host's release list. */
  datatype GitReleaseEntity = GitReleaseEntity(
    id: Option<int>,
    name: Option<string>,
    body: Option<string>,
    assets: Option<seq<GitReleaseAssetEntity>>)

  /** A downloadable file attached to a release. */
  datatype GitReleaseAssetEntity = GitReleaseAssetEntity(
    name: Option<string>,
    browser_download_url: Option<string>)

  /** What `latest` reports on success; never null. */
  datatype ReleaseEntity = ReleaseEntity(
    latestVersionName: string,
    latestVersionInfo: string,
    latestApkName: string,
    latestApkDownloadUrl: string)

  /** The identity provider's token-endpoint answer. */
  datatype MicrosoftTokenEntity = MicrosoftTokenEntity(
    access_token: Option<string>,
    token_type: Option<string>,
    expires_in: Option<int>,
    scope: Option<string>,
    refresh_token: Option<string>,
    id_token: Option<string>,
    error: Option<string>,
    error_description: Option<string>)

  /** A drive folder listing. */
  datatype DriveEntity = DriveEntity(value: Option<seq<DriveItemEntity>>)

  datatype DriveItemEntity = DriveItemEntity(
    id: string,
    name: string,
    lastModifiedDateTime: string,
    folder: Option<DriveItemFolderEntity>,
    file: Option<DriveItemFileEntity>)

  datatype DriveItemFolderEntity = DriveItemFolderEntity(childCount: int)

  datatype DriveItemFileEntity = DriveItemFileEntity(mimeType: string)

  /** The `data` an endpoint's envelope may carry (the handlers answer `CbResponse<*>`). */
  datatype Payload =
    | Release(release: ReleaseEntity)
    | Drive(listing: DriveEntity)
    | Location(url: string)
}
