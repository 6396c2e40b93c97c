/**
 * The records the downloader passes around. A site and every folder below it
 * share one shape (`name`, `files`, `folders`); the `folders` dictionary is
 * iterated in insertion order, so it is a sequence of (folder id, folder) pairs.
 */
module Entities {

  /** One file entry of a folder listing. */
  datatype RemoteFile = RemoteFile(
    fileEntryId: int,
    title: string,
    modifiedDate: int,
    size: int,
    groupId: int,
    folderId: int,
    extension: string)

  datatype Folder = Folder(name: string, files: seq<RemoteFile>, folders: seq<SubFolder>)

  /** An entry `folderId: folder` of a `folders` dictionary (or `groupId: site` of the sites dictionary). */
  datatype SubFolder = SubFolder(folderId: int, folder: Folder)

  /** The `(url, path, fileEntryId)` triple that the download list holds and a worker consumes. */
  datatype Task = Task(url: string, path: string, fileEntryId: int)
}
