/**
 The keys of the documents of onedriveui/config.py: those the code speaks of, and all others.
 */
module ConfigNames {
  datatype Name =
    | SchemaVersion | AppHead | AdvancedHead | Accounts | AccountHead
    | MountHead | BackendHead | OnDemandHead | BandwidthHead | SafetyHead | FilesHead | ConflictsHead | SelectiveHead
    | KfmHead | OfflineHead | SharingHead | VaultHead | UiHead
    | Theme | AccentSource | Animations | AutostartMethod | ActiveAccountId
    | LogLevel | RcPortRange | KeepLogsDays | TickIdleMs | TickActiveMs
    | Id | Remote | Kind | DriveType | SyncRoot | Enabled
    | Transfers | Checkers | ReadChunkStreams | DirCacheTime | PollInterval | CacheMaxSize | ReadChunkSize | TpsLimit
    | ExtraArgs | ChunkSize | UploadCutoff | NoVersions | HardDelete | LinkScope | LinkType | MetadataPermissions
    | LimitDownload | DownloadKb | UploadMode | UploadKb | AutoPercent
    | MassDeleteThreshold | RefusePathsUnderMount | MinDiskSpace | WarningMinDiskSpace
    | NamePolicy | MaxFileBytes | MaxRelPathChars | MaxTotalPathChars | HydrateConcurrency | AutoFreeUpDays
    | VaultBackend | AutoLockMinutes | WarnBeforeMinutes | LocalPath | ScheduleMinutes | MaxDeletePercent
    | ConflictResolve | ConflictLoser | CheckAccess | CheckFilename | MaxLock | ActivityCenterWidth | ActivityRows
    | Policy | Mode | Method | DefaultScope | DefaultType
    | Other(text: string)

  /** `Top(n)` is a key of the document itself; `Key(head, n)` is spelled section first. */
  datatype Dotted = Top(name: Name) | Key(head: Name, name: Name)
}
