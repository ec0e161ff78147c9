# Edge controller: verified models

This project models the parts of the edge controller where a mistake is hardest to see and proves what they
promise. `dafny verify dfyconfig.toml` checks everything.

The centre is the crash-recoverable application upgrade of `scripts/rk3562/update-manager.py`. It is modelled twice:

* `Upgrade.dfy` is the protocol as a transition system: one durable status record, the program tree, environment and
  data, the backups, the running services; and, in memory, the place the manager has reached and its status
  dictionary. Every durable write is one event; install, restore and copies have a torn middle; a kill or a reboot
  can fall between any two events, services write data, stop, and are started through the gate at any time.
  `UpgradeInvariant.dfy` has the inductive invariant, `UpgradeAftermath.dfy` what is left of a job once recovery gives
  up or deletes the backup, `UpgradeTheorems.dfy` what follows for every run, `UpgradeGate.dfy` exactly when the gate
  opens on damage and when the backup is lost, `UpgradeStopped.dfy` the upgrade cut short before its backup was
  committed, `UpgradeRuns.dfy` concrete runs at the edges. Being safe is not all: on undisturbed runs
  (`UpgradePass.dfy`) a recovery works (`UpgradeRecovery.dfy`), every boot works (`UpgradeBoot.dfy`), an upgrade
  succeeds and a failing one is rolled back (`UpgradeProgress.dfy`), and after a boot the next upgrade is not refused
  (`UpgradeRequests.dfy`).
* `UpdateManager.dfy` is the same manager as a program: a class whose methods have the source's try blocks and
  handlers, update the status dictionary field by field and rewrite it, and can be killed in every operation.
  Its class invariant says that whatever it did is a run of the protocol, so all theorems hold of it. Its field
  `trouble` bounds how much can still go wrong (a failure, a kill, services coming or going by themselves); as long
  as none of it is used up, the commands do what they are for.

Around it:

* `Backup.dfy`: the rollback backup file by file, with the power failing after any number of writes.
* `Retention.dfy`: which jobs, backups and uploads are deleted; the Python and the Go upload clean-up agree.
* `Archive.dfy`, `ArchiveLinks.dfy`: which archives are admitted, where their members land when links are live during
  extraction, and where the links lead afterwards.
* `Navigation.dfy`, `PageScope.dfy`, `PageLife.dfy`, `Polling.dfy`: soft navigation, what a page controller holds, the
  two together, and its polling.
* `DeviceTypes.dfy`, `EditorRefusals.dfy`: the device type editor; its guards make the checks before sending unable to
  fail, and refuse nothing else.
* `Pinyin.dfy`, `RegisterMap.dfy`, `StableKey.dfy`, `ZonedTime.dfy`: segmentation, register allocation, keys, times.

A recurring form: the state of an object is a datatype, what an action does to it is a function, the class's methods
are proved to do exactly that (`State() == ...`) and to keep the invariant (`Valid()`), and the theorems are about all
runs of those functions.

## What the models showed

* `atomic_write_json` can raise after `os.replace` (the directory sync comes later), and a clean-up can raise after the
  final status was written. This adds the edges INSTALLING to FAILED (`InstallingBecomesFailed`) and ROLLED_BACK to
  FAILED (`RolledBackBecomesFailed`) to the status history; `StateHistory` says exactly which writes take them.
* The gate lets services onto a damaged device if and only if one of four writes is made on one (`GateFromRest`): a
  new job, since a validation is not refused while a failed recovery is still required
  (`ValidationForgetsRecovery`); the end of the attempts and a failed last attempt, after which recovery gives up
  (`GivingUpOpensTheGate`); and "program unchanged" after a stop in STOPPING, since `load_complete_backup` reports an
  unreadable marker with the same code as a missing one (`UnreadableMarkerLosesTheBackup`).
* The history flag `orphaned` says that a job was validated on a damaged device; the theorems are about jobs that were
  not. `gaveUp` and `lost` say that recovery ended, or deleted a complete backup, before program and environment were
  back; after giving up the backup is still there (`CrashSafety`).
* The checksums of a backup cover regular files only. A required program file that was a link when saved can vanish
  unnoticed: `OnlyRegularFilesAreSure` gives the exact reach.
* `start(false)` during a polling callback arms a second timer that `stop` no longer knows; without it the
  guarantees hold. `StepIsExact` makes this an equivalence.
* The search adds tiers meant to fix priorities between word lists to a match score of up to 1500, while neighbouring
  tiers are at most 500 apart: `TiersDominateExactly` says when a tier really comes first.
* Two corrections of a wall time are enough, one is not, and the times missed are exactly those a forward change skips.

## Assumptions

* `install.sh` leaves a torn tree until it ends, then the tree of its package; it may add environment keys and does
  not touch data. Hashing is injective; a committed backup does not rot by itself; job ids are new.
* The gate check and the start it allows are one step, and the commands exclude one another (the lock).
* A hidden page gets no input until it is shown again; page controllers do not call the navigator while being mounted.
* The editors of the device type page are modal: the list they were opened from does not change under them.
* The backend stores what the register page sends, and gives a new mapping an id of its own.

## Model

| member | source | states |
|---|---|---|
| UpgradeInvariant.InitInv | scripts/rk3562/update-manager.py:197-239 | A device at rest, with the default status, satisfies the invariant. |
| UpgradeInvariant.InvKept | scripts/rk3562/update-manager.py:808-901 | Every event, of all commands, services, failures, kills and reboots, keeps the invariant. |
| UpgradeTheorems.CrashSafety | scripts/rk3562/update-manager.py:1849-1964 | For every job that began on an undamaged device: damage is seen only in INSTALLING, in ROLLING_BACK without pending health, in FAILED with recovery required, or after recovery gave up or lost the backup; before that no service runs on it; and the complete backup of the old program, environment and data is there, also after giving up, if and only if recovery has not deleted it itself. |
| UpgradeTheorems.GateAgreement | scripts/rk3562/update-manager.py:1604-1626 | In every reachable state a closed gate means the phase is STOPPING or one in which something may be damaged, so it never shuts out a healthy device; the gate is open wherever the manager itself starts services, and where it is open nothing is damaged unless recovery gave up or lost the backup. |
| UpgradeTheorems.OutcomeMeaning | scripts/rk3562/update-manager.py:1876-1964 | SUCCESS means the new program and its version; ROLLED_BACK the old program, environment and version; a plain FAILED, unless recovery gave up or lost the backup, that nothing was replaced. |
| UpgradeTheorems.RestoreIsExact | scripts/rk3562/update-manager.py:1442-1486 | At the write that announces a restore, program and environment are the old ones and the data is that of the moment all services had stopped. |
| UpgradeTheorems.StatusMoves | scripts/rk3562/update-manager.py:295-313 | Only a status write changes the status on disk; the restore counter moves only when recovery goes on to restore. |
| UpgradeTheorems.StateHistory | scripts/rk3562/update-manager.py:52-65 | A persisted change of phase is in the table, a self-loop, READY to VALIDATING or FAILED with recovery required to ROLLING_BACK, if and only if the write does not answer an exception that came after INSTALLING, or ROLLED_BACK, was already on disk; those writes lead to FAILED. |
| UpgradeTheorems.RefusedExactly | scripts/rk3562/update-manager.py:301-313 | In every reachable state, a write that is checked against the table is refused if and only if it is the rollback handler's and SUCCESS is already on disk: the table never stops an upgrade. |
| UpgradeTheorems.OriginSticks | scripts/rk3562/update-manager.py:1715-1727 | Within a job, the state a recovery came from is never overwritten, however often recovery is cut short. |
| UpgradeTheorems.SuccessIsFinal | scripts/rk3562/update-manager.py:1876-1884 | A written SUCCESS stays for the rest of the job, whatever its own run or a recovery still does. |
| UpgradeTheorems.BackingUpOnce | scripts/rk3562/update-manager.py:1849-1854 | Job ids never decrease and each job enters BACKING_UP at most once. |
| UpgradeTheorems.ReferenceData | scripts/rk3562/update-manager.py:1861-1862 | The data a restore is measured by is read when no service runs. |
| UpgradeTheorems.NoUnknownState | scripts/rk3562/update-manager.py:1689-1697 | The branch of recovery for an unrecognised state is never reached. |
| UpgradeTheorems.RestoresCounted | scripts/rk3562/update-manager.py:1718-1730 | Along any run within one job, the counter counts the restores recovery begins. |
| UpgradeTheorems.BoundedRecovery | scripts/rk3562/update-manager.py:1699-1730 | Over any crashes and reboots, recovery begins at most three restores for one job, never more than the attempts on disk. |
| UpgradeAftermath.AccountedKept | scripts/rk3562/update-manager.py:1689-1781 | Every event keeps this: a job that began on an undamaged device is covered by the invariant, or recovery has given up with the backup still there, or the backup of an upgrade stopped in STOPPING is gone and no restore can come. |
| UpgradeGate.StepOpens | scripts/rk3562/update-manager.py:1604-1626 | For every reachable state of such a job whose gate is not open on damage, and every event: it is open on damage afterwards if and only if the device is damaged and the event writes a new job, the end of the attempts, a failed last attempt, or "program unchanged". |
| UpgradeGate.GateFromRest | scripts/rk3562/update-manager.py:1604-1626 | Over every run from rest, without exception: some state has the gate open on a damaged device if and only if some such write was made on a damaged device. |
| UpgradeGate.BackupIsLostExactly | scripts/rk3562/update-manager.py:1753-1762 | While the device is damaged, the backup it needs is lost exactly when recovery removes it as incomplete; no clean-up, failure, kill or giving up takes it away. |
| UpgradeStopped.StoppedStays | scripts/rk3562/update-manager.py:1715-1781 | Every event of the same job keeps a job that stopped in STOPPING without a complete backup as it is: nothing touched, no backup, in STOPPING, FAILED or ROLLING_BACK without pending health. |
| UpgradeStopped.StoppedForGood | scripts/rk3562/update-manager.py:1715-1781 | After a crash in STOPPING before the commit, any continuation of the job through crashes, reboots, recoveries and service starts leaves program and environment as they were, announces no restore, and is in STOPPING, being retried or FAILED; it is never given up on damage. |
| UpgradeRecovery.RecoveryWorks | scripts/rk3562/update-manager.py:1715-1808 | From every reachable state of an unexempted job in which a recovery is due and allowed, a run in which nothing is killed, no service writes and nothing fails (but the load, where there is no complete backup) ends the same job with the gate open: with a complete backup in ROLLED_BACK with the old program and environment and the data of the stop; without one in FAILED, nothing required and nothing touched. |
| UpgradeBoot.BootWorks | scripts/rk3562/update-manager.py:1604-1824 | Every boot works: from every reachable state of an unexempted job, unless no attempt is left for a job that still needs one, a reboot followed by an undisturbed recovery, the start of all services and the health confirmation ends, for the same job, with all services up on undamaged files. |
| UpgradeProgress.RunWorks | scripts/rk3562/update-manager.py:1827-1884 | From every reachable unexempted state that is READY and requested, an undisturbed runner brings the same job to SUCCESS: the package in place, its version recorded, all services up, the data as it was. |
| UpgradeProgress.RollbackWorks | scripts/rk3562/update-manager.py:1916-1947 | Whatever operation fails, before or after its effect, between the start of the installation and the write of SUCCESS: an undisturbed runner brings the same job to ROLLED_BACK with the old program and environment, the data of the stop and all services up. |
| UpgradeProgress.EarlyFailureWorks | scripts/rk3562/update-manager.py:1885-1915 | Whatever fails before the installation: the job ends in FAILED with nothing replaced and nothing to recover, and with all services up again if they may have been stopped. |
| UpgradeProgress.UpgradeWorks | scripts/rk3562/update-manager.py:808-1884 | From every reachable unexempted state in which a new upgrade may begin, validating any package, requesting it and running it undisturbed ends in SUCCESS on that package, with the data as it was. |
| UpgradeRequests.NoRequestOutlivesItsJob | scripts/rk3562/update-manager.py:804-814 | In every reachable state, once a job is over for good its request is gone, and a new validation is not refused. |
| UpgradeRequests.UpgradeAfterBoot | scripts/rk3562/update-manager.py:804-1884 | After every such boot any package can be brought to SUCCESS by an undisturbed validation, request and run. |
| UpgradeRuns.UnreadableMarkerLosesTheBackup | scripts/rk3562/update-manager.py:1335-1338 | A run from rest in which an unreadable marker makes recovery delete a complete backup of a torn device and open the gate. |
| UpgradeRuns.GivingUpOpensTheGate | scripts/rk3562/update-manager.py:1699-1713 | A run from rest after which the gate is open on a torn device. |
| UpgradeRuns.ValidationForgetsRecovery | scripts/rk3562/update-manager.py:804-845 | A run from rest in which a validation drops the duty to recover a torn device that still has its directories, VERSION and environment file. |
| UpgradeRuns.InstallingBecomesFailed | scripts/rk3562/update-manager.py:282-292 | A run from rest in which the write of INSTALLING raises after the file was replaced and the next write makes it FAILED. |
| UpgradeRuns.RolledBackBecomesFailed | scripts/rk3562/update-manager.py:1945-1963 | A run from rest in which the clean-up after ROLLED_BACK raises and the next write makes it FAILED with a recovery required. |
| UpdateManager.Manager.WriteStatus | scripts/rk3562/update-manager.py:264-313 | Whatever happens, the status on disk is the old or the given dictionary and nothing else changes but what services write; a normal end has replaced it; a raise goes to the source's handler; with the gate closed no service comes up meanwhile; when nothing goes wrong it ends normally, unless it would roll back a SUCCESS. |
| UpdateManager.Manager.Perform | scripts/rk3562/update-manager.py:593-612 | An outside operation ends, raises or dies with the status on disk and the dictionary kept; control goes to the next operation or the enclosing handler; a health check ends only with all services up and the expected version in place; when nothing goes wrong, and before a health check all services are up, it ends. |
| UpdateManager.Manager.CleanupHistory | scripts/rk3562/update-manager.py:1489-1512 | Every backup that goes or is damaged is one the retention rule dooms, every protected one stays as it is, whether the clean-up ends, raises half way or dies. |
| UpdateManager.Manager.StartServices | scripts/rk3562/update-manager.py:1392-1395 | The services are started one by one through the gate: with the gate closed none comes up, with it open all are up when nothing goes wrong; a failure goes to the handler. |
| UpdateManager.Manager.CreateProgramBackup | scripts/rk3562/update-manager.py:1243-1256 | At its end the backup holds exactly the program and environment the job started from, and both are in place; a failure leads to FAILED without a service restart. |
| UpdateManager.Manager.SnapshotData | scripts/rk3562/update-manager.py:1861-1863 | At its end the backup is complete and committed, holds program, environment and data of the job, the data on disk is the one copied, and no service runs; a failure is reported with the services affected. |
| UpdateManager.Manager.InstallPackage | scripts/rk3562/update-manager.py:1870-1871 | At its end the tree is the package's and nothing is damaged; a failure goes to the rollback. |
| UpdateManager.Manager.BackUpProgram | scripts/rk3562/update-manager.py:1843-1855 | A failure before STOPPING leads to FAILED without a service restart, a changed installation to its own handler. |
| UpdateManager.Manager.BackUp | scripts/rk3562/update-manager.py:1843-1867 | The first half of the try block; a failure reports whether services may have been stopped, exactly as the flag does. |
| UpdateManager.Manager.Switch | scripts/rk3562/update-manager.py:1868-1872 | Failures up to the INSTALLING write are still before the installation, later ones after it. |
| UpdateManager.Manager.BringUp | scripts/rk3562/update-manager.py:1873-1875 | SUCCESS is written only with all services up, nothing damaged and the target version in place; when nothing goes wrong it gets there. |
| UpdateManager.Manager.Succeed | scripts/rk3562/update-manager.py:1876-1884 | It ends normally only with SUCCESS and the target version on disk. |
| UpdateManager.Manager.RestoreBackup | scripts/rk3562/update-manager.py:1442-1486 | At its end program and environment are the old ones, the data is that of the stop and no service runs; any failure goes to the handler of the command that restores, with its code. |
| UpdateManager.Manager.RollBack | scripts/rk3562/update-manager.py:1922-1930 | The restore is on disk as pending before any service is started. |
| UpdateManager.Manager.BringBack | scripts/rk3562/update-manager.py:1931-1932 | ROLLED_BACK is written only with all services up, nothing damaged and the previous version in place. |
| UpdateManager.Manager.ConfirmRollback | scripts/rk3562/update-manager.py:1933-1947 | It ends normally only with ROLLED_BACK and the previous version on disk. |
| UpdateManager.Manager.FailBeforeInstall | scripts/rk3562/update-manager.py:1885-1915 | The handler before the installation never ends normally; with the gate closed no service comes up unless FAILED is on disk; when nothing more goes wrong FAILED is, with nothing required or requested and all services up if they may have been stopped. |
| UpdateManager.Manager.FailAfterInstall | scripts/rk3562/update-manager.py:1916-1964 | The handler after the installation ends normally only in ROLLED_BACK with the previous version; when nothing more goes wrong, and SUCCESS was not on disk, it does, with all services up. |
| UpdateManager.Manager.RunJob | scripts/rk3562/update-manager.py:1827-1964 | The runner refuses a job that is not ready and requested, changing nothing. When nothing goes wrong with a requested one it ends in SUCCESS with the package in place, its version recorded and all services up; when one thing goes wrong and the process lives, it is over all the same with no recovery due. It ends normally only in SUCCESS with the target version or ROLLED_BACK with the previous one; whatever happens is a run of the protocol. |
| UpdateManager.Manager.LoadBackup | scripts/rk3562/update-manager.py:1731-1742 | The load ends only with a complete backup; the previous version in memory is then the one its marker names, and nothing else changes; when nothing goes wrong it ends exactly if the backup is complete. |
| UpdateManager.Manager.RecoverBackup | scripts/rk3562/update-manager.py:1731-1752 | The try block of recovery ends normally only in ROLLING_BACK with health pending, and does so with a complete backup when nothing goes wrong; errors reach the handler with their code. |
| UpdateManager.Manager.RecoveryFails | scripts/rk3562/update-manager.py:1753-1781 | The backup is removed exactly for an incomplete backup of a job stopped in STOPPING, and only that one; the job ends in FAILED, with a recovery required exactly if that was not the case and attempts are left. |
| UpdateManager.Manager.RecoverByRollback | scripts/rk3562/update-manager.py:1699-1781 | It ends in FAILED or restored; with no attempt left only the status changes, to FAILED for good. |
| UpdateManager.Manager.BeginAttempt | scripts/rk3562/update-manager.py:1715-1730 | Before anything is loaded the attempt is counted on disk, the restore required and the first origin kept; nothing else on disk changes. |
| UpdateManager.Manager.RecoverEarly | scripts/rk3562/update-manager.py:1666-1688 | A job cut short in VALIDATING or BACKING_UP ends in FAILED with no recovery required. |
| UpdateManager.Manager.RecoverReady | scripts/rk3562/update-manager.py:1653-1664 | A validated job stays READY, with its request withdrawn. |
| UpdateManager.Manager.RecoverTransaction | scripts/rk3562/update-manager.py:1629-1781 | A recovery that ends leaves no job half way: over, ready again, or restored and waiting for health. When nothing goes wrong it ends, and with a restore due, an attempt left and a complete backup it has restored. |
| UpdateManager.Manager.ConfirmRecovery | scripts/rk3562/update-manager.py:1795-1808 | It ends normally only in ROLLED_BACK; any failure reaches the handler that allows a retry. |
| UpdateManager.Manager.FailConfirmation | scripts/rk3562/update-manager.py:1809-1823 | The handler ends in FAILED, with a recovery required exactly while attempts are left. |
| UpdateManager.Manager.FinalizeRecovery | scripts/rk3562/update-manager.py:1784-1824 | It decides only a restored job, into ROLLED_BACK or FAILED, and otherwise leaves the status unless it failed before; when nothing goes wrong and all services are up, a restored job ends in ROLLED_BACK. |
| UpdateManager.Manager.BeginJob | scripts/rk3562/update-manager.py:831-845 | A new job gets a fresh id and a default status in VALIDATING. |
| UpdateManager.Manager.Validate | scripts/rk3562/update-manager.py:846-887 | The try block of a validation ends normally only with READY and the package's version on disk. |
| UpdateManager.Manager.ValidatePackageJob | scripts/rk3562/update-manager.py:808-901 | An active or requested job refuses it and nothing changes; otherwise it ends in READY, and does so when nothing goes wrong; after one failure the status is the one found, or FAILED, or the failure was that of its first write. |
| UpdateManager.Manager.Launch | scripts/rk3562/update-manager.py:1068-1090 | The request is on disk when it ends normally; when the start fails and the withdrawing write goes through, FAILED without a request is on disk. |
| UpdateManager.Manager.RequestStart | scripts/rk3562/update-manager.py:1038-1090 | Only a READY job without a request can be requested; otherwise nothing changes; when nothing goes wrong the request is on disk. |
| UpdateManager.Manager.Live | scripts/rk3562/update-manager.py:1994-2027 | After any sequence of commands, each killed anywhere or not: on a damaged device the complete backup is there if and only if recovery has not deleted it; otherwise damage only where it is recorded, with the gate closed and services down; SUCCESS and ROLLED_BACK mean what they say; at most three restores. |
| UpdateManager.Safe | scripts/rk3562/update-manager.py:1604-1964 | The same for the state of any run of the protocol from a device at rest. |
| Backup.BackupChecksums | scripts/rk3562/update-manager.py:1259-1291 | It succeeds exactly on complete backups, with the checksums of exactly the regular files of program, data and environment. |
| Backup.LoadCompleteBackup | scripts/rk3562/update-manager.py:1331-1357 | It accepts exactly a valid marker for this directory with every listed file present and unchanged; without a readable marker the error is always "incomplete"; "corrupt" names a file that differs. |
| Backup.LoadIsExact | scripts/rk3562/update-manager.py:1350-1357 | What was committed loads later if and only if every covered file is as it was. |
| Backup.OnlyRegularFilesAreSure | scripts/rk3562/update-manager.py:1266-1272 | A path is present in everything that loads if and only if it was a covered regular file when committed. |
| Backup.BackupDirectory.CopyEntry | scripts/rk3562/update-manager.py:1093-1098 | Unless the power fails, an entry is copied with everything under it, links kept as links. |
| Backup.BackupDirectory.CreateProgramBackup | scripts/rk3562/update-manager.py:1243-1256 | It finishes only with exactly the program entries, both default environments and the live environment file added; it fails only if an environment cannot be read. |
| Backup.BackupDirectory.CopyData | scripts/rk3562/update-manager.py:1862 | It finishes only with the whole data directory added, links replaced by what they read; it fails only if the data is missing or holds a link that leads nowhere. |
| Backup.BackupDirectory.CommitBackup | scripts/rk3562/update-manager.py:1294-1328 | The marker is written only for a complete backup under its own id, and holds its checksums; which inputs give which error. |
| Backup.TakeBackup | scripts/rk3562/update-manager.py:1855-1863 | Wherever the power fails, what is left loads if and only if the marker was written; a finished backup holds every live path under a program entry at its place under "program" with the same node, the three environment files, the whole data, and nothing else; which inputs give which error. |
| Backup.IsBackup | scripts/rk3562/update-manager.py:1243-1256 | What the copying loops leave is that backup, path by path. |
| Backup.RestoreBackup | scripts/rk3562/update-manager.py:1442-1471 | Exactly when a restore goes through; path by path, the data afterwards is that of the backup and nothing else, the environment file is that of the backup, and every other path is there if and only if the old installer left it, with the same node; which error says that nothing could be loaded. |
| Backup.RestoreBringsBack | scripts/rk3562/update-manager.py:1462-1475 | Restoring an undamaged backup gives the environment and the whole data of the moment of the backup, and keeps everything else the installer wrote. |
| Backup.BackupThenRestore | scripts/rk3562/update-manager.py:1442-1476 | Backup and restore compose: data and environment come back, the program is what the old installer left; after a power loss nothing restores. |
| Retention.CleanupDirectory | scripts/rk3562/update-manager.py:1497-1512 | The loop deletes exactly the unprotected entries beyond the room left beside the protected ones, newest kept. |
| Retention.DoomedSpares | scripts/rk3562/update-manager.py:1502-1505 | A protected entry is never deleted. |
| Retention.OldestGo | scripts/rk3562/update-manager.py:1506-1512 | Whatever is deleted, every older unprotected entry is deleted too. |
| Retention.SurvivorCount | scripts/rk3562/update-manager.py:1511-1512 | How many entries stay, exactly. |
| Retention.CleanupStaleUploads | scripts/rk3562/update-manager.py:1558-1565 | The cumulative pass keeps the longest newest-first prefix within four files and 512 MiB. |
| Retention.RemoveIndex | web/internal/http/handlers_application_update.go:555-564 | The oldest unprotected file, if there is one. |
| Retention.CleanupApplicationUpdateUploads | web/internal/http/handlers_application_update.go:546-572 | The loop with its running total removes oldest unprotected files until within the limits; a negative limit is zero; a failing unlink ends it early, over the limits, on the way to the same result. |
| Retention.ProtectedStays | web/internal/http/handlers_application_update.go:554-571 | The protected file is never removed, and the loop stops within the limits or with only that file left. |
| Retention.LeavesTheNewest | web/internal/http/handlers_application_update.go:554-571 | With nothing protected what is left is the longest newest end within the limits. |
| Retention.SameRetention | web/internal/http/handlers_application_update.go:507-573 | What satisfies the contract of the Python pass is what the Go loop leaves. |
| Retention.CleanBoth | scripts/rk3562/update-manager.py:1530-1565 | The two programs keep the same files of every directory; after a failing unlink the server's rest is still on the way to them. |
| Archive.NormalFailsIffClimbs | scripts/rk3562/update-manager.py:350-360 | Normalising a target fails exactly when some prefix of it climbs above the start. |
| Archive.NormalOfPlain | scripts/rk3562/update-manager.py:351-360 | A path without ".." is its own normal form. |
| Archive.NormalCancels | scripts/rk3562/update-manager.py:354-358 | A part and the ".." after it cancel anywhere in a path. |
| Archive.SafeLinkTarget | scripts/rk3562/update-manager.py:340-363 | The loop accepts exactly relative targets whose normal form is under the root, and hard links only to members. |
| Archive.InspectNames | scripts/rk3562/update-manager.py:376-389 | The first pass accepts exactly safe, distinct, supported members, adds up the sizes of files and collects names and links; which fault each error reports. |
| Archive.InspectArchive | scripts/rk3562/update-manager.py:366-394 | It accepts exactly the admissible lists: safe distinct names, supported kinds, safe links, nothing inside a link; and returns the total size. |
| Archive.WalksHome | scripts/rk3562/update-manager.py:390-393 | A live path resolution through directories that are there, with no link at the end, ends at exactly the lexical path, present or missing. |
| Archive.ExtractMember | scripts/rk3562/update-manager.py:397-405 | A member with no link at or above it lands at exactly its own name below directories, and nothing else changes but missing directories above it; unless it is a hard link, it fails only if a file is above it or something of the other sort is at its place. |
| Archive.ExtractArchive | scripts/rk3562/update-manager.py:397-405 | Extracting an admissible list in order puts every member at exactly its own name, as what it is, below directories, and nothing but these and directories above them exists afterwards; without hard links it succeeds if and only if no file is above another member. |
| Archive.UnderRoot | scripts/rk3562/update-manager.py:333-337 | Everything extracted is under the root directory. |
| Archive.ExtractChecked | scripts/rk3562/update-manager.py:397-408 | What is handed on is an admissible archive, fully extracted, with a real root directory; without hard links every admissible archive with a root directory and no file above another member is handed on. |
| ArchiveLinks.WalksOnPaper | scripts/rk3562/update-manager.py:350-360 | A live resolution that meets no link, going up and down as it likes, can end only at the normal form of its path. |
| ArchiveLinks.SafeMeansInside | scripts/rk3562/update-manager.py:340-361 | The link rule is right on the live file system: where the walk of a relative target from the directory of its link meets no other link and leads to a place, the link is safe if and only if the place is under the root; a target that climbs is refused and leads to no place. |
| ArchiveLinks.NamesMeanInside | scripts/rk3562/update-manager.py:333-337 | The same for names: where the walk along a relative name without ".." leads to a place, the name is safe if and only if the place is under the root. |
| ArchiveLinks.OpensItsTarget | scripts/rk3562/update-manager.py:345-346 | Opening an extracted symbolic link walks its target from the directory the link is in. |
| ArchiveLinks.LinksLeadInside | scripts/rk3562/update-manager.py:340-361 | Opening any extracted symbolic link whose walk meets no other link never leads out of the root. |
| ArchiveLinks.HardLinksNameMembers | scripts/rk3562/update-manager.py:362-363 | A hard link of an extracted archive, where its walk meets no link, names an extracted member, never a missing place. |
| ArchiveLinks.ChainsStayInside | scripts/rk3562/update-manager.py:340-361 | Through any number of links that are safe and go up first and down afterwards, a walk that sets out under the root stays there. |
| ArchiveLinks.EverythingOpensInside | scripts/rk3562/update-manager.py:390-405 | In an extracted archive whose links are of that form, every plain path under the root opens under the root, through any chain of links. |
| Navigation.InvKept | web/static/app-navigation.js:534-726 | Every click, history move, answer, script, hiding and showing keeps the invariant. |
| Navigation.NavigationIsSound | web/static/app-navigation.js:213-253 | Over every interleaving: committed versions increase; while busy nothing is mounted and the newest load is alive; when idle and not given up every matching controller is mounted, for the current version; none is mounted twice for a version. |
| Navigation.StepWrites | web/static/app-navigation.js:623-639 | Only the text of the newest load writes the page, and only it or the browser the address. |
| Navigation.StaleLoadsNeverWrite | web/static/app-navigation.js:614-624 | After a navigation starts no older load ever writes the page or the address again. |
| Navigation.QuietLoadSettles | web/static/app-navigation.js:613-664 | A load left alone commits its page, sets its address if it is a new one, and mounts exactly the page's controllers that do not throw. |
| Navigation.ClickSettles | web/static/app-navigation.js:534-673 | From every state that keeps the invariant, idle or busy with another target, a click for a page that is neither the one shown nor the one being loaded ends idle on the page its text names, with the clicked address, as the newest commit, with exactly that page's non-throwing controllers mounted, however the answers of older loads come in between. |
| Navigation.HistorySettles | web/static/app-navigation.js:701-708 | The same for every move in the history to a page of soft navigation, on an idle page also to the address already shown. |
| Navigation.QuietRun | web/static/app-navigation.js:607-664 | Such a run exists from every such click and move. |
| Navigation.AllTriedExact | web/static/app-navigation.js:227-242 | Activation mounts exactly the registered controllers of the page that do not throw, beside those already mounted. |
| Navigation.Navigator.ActivatePageControllers | web/static/app-navigation.js:227-242 | The loop over the registered controllers does what the activation function says. |
| Navigation.Navigator.DeactivatePageControllers | web/static/app-navigation.js:244-253 | Afterwards nothing is mounted. |
| Navigation.Navigator.RegisterPageController | web/static/app-navigation.js:213-221 | A controller registered on its page is mounted at once unless its mount throws or a navigation is under way, in which case nothing is mounted; what the user sees stays. |
| Navigation.Navigator.Navigate | web/static/app-navigation.js:534-600 | A new version begins if and only if the target is a page of this origin, the page is not the login page, and the address is neither the one shown (unless forced) nor the one being loaded; then nothing is mounted and its load is on the way, or the set-up failed and the page is given up; otherwise nothing changes at all. |
| Navigation.Navigator.PopState | web/static/app-navigation.js:701-708 | The address is the browser's and the page stays until a load answers; a load for the new address begins if and only if it is a page, the one shown is not the login page, and it is not being loaded already; the invariant is kept. |
| Navigation.Navigator.Continue | web/static/app-navigation.js:613-671 | An outdated load only ends: page, address, mounts and commits stay; the newest one that fails gives the page up; after a step that leaves the navigator idle and not given up, exactly what should be mounted is, for this version. |
| Navigation.Navigator.PageHide | web/static/app-navigation.js:710-716 | Nothing is mounted afterwards and every load under way is outdated. |
| Navigation.Navigator.PageShow | web/static/app-navigation.js:718-726 | Every controller of the page that does not throw is mounted, for the current version; what the user sees stays. |
| PageScope.DrainedRuns | web/static/app-navigation.js:208-210 | Disposal runs the callbacks last first and empties the list. |
| PageScope.DrainedReleases | web/static/app-navigation.js:208-210 | Disposal releases exactly what has a disposer. |
| PageScope.InvKept | web/static/app-navigation.js:88-211 | Everything alive always has a disposer, timers have one each, callbacks are kept in order. |
| PageScope.DisposeKeeps | web/static/app-navigation.js:201-211 | After disposal nothing is alive, and the callbacks ran in reverse order. |
| PageScope.NothingSurvives | web/static/app-navigation.js:88-211 | Whatever is done with a scope before or after its disposal, no listener or timer is left, only requests begun with a caller's signal are still under way, and each callback has run as often as it was given. |
| PageScope.PageScopeObject.OnDispose | web/static/app-navigation.js:88-93 | The callback runs at once if the scope is disposed already, and is kept otherwise. |
| PageScope.PageScopeObject.Listen | web/static/app-navigation.js:95-104 | The listener is there, unless the scope is disposed, and nothing else comes or goes. |
| PageScope.PageScopeObject.SetTimeout | web/static/app-navigation.js:112-123 | A new timer is there, unless the scope is disposed, and nothing else comes or goes. |
| PageScope.PageScopeObject.TimerFires | web/static/app-navigation.js:112-123 | A timeout that goes off takes exactly its own disposer out of the list, and only it is gone. |
| PageScope.PageScopeObject.Dispose | web/static/app-navigation.js:201-211 | The pop loop drains the disposers: nothing is alive, the callbacks ran in reverse order, and only requests with a caller's signal are under way. |
| PageLife.NavigatorGrows | web/static/app-navigation.js:227-253 | Whatever the navigator does, a controller is newly held only by a mount it has just made. |
| PageLife.LeftPagesHoldNothing | web/static/app-navigation.js:88-253 | Over every interleaving of navigation and scope use: the scope of a controller that is no longer mounted, and every scope while a navigation is under way, is disposed and holds nothing; one of an outdated version cannot begin a request. |
| DeviceTypes.FirstFreeIsFree | web/static/device-types.js:170-175 | The generated block key is the lowest one not in use. |
| DeviceTypes.ClashesAgree | web/static/device-types.js:1471-1487 | The overlap rule of the field form and that of the payload, over other vocabularies, are one symmetric rule. |
| DeviceTypes.ApartMeansDisjoint | web/static/device-types.js:1127-1148 | Fields of a block that do not clash share no bit; fields that clash share a register. |
| DeviceTypes.BlockSavedKeeps | web/static/device-types.js:1321-1388 | Saving a block, new or edited, keeps the draft sound. |
| DeviceTypes.BlockDeletedKeeps | web/static/device-types.js:742-761 | Deleting a block keeps the draft sound. |
| DeviceTypes.BlockMovedKeeps | web/static/device-types.js:708-729 | Moving a block keeps the draft sound. |
| DeviceTypes.FieldSavedKeeps | web/static/device-types.js:1390-1500 | Saving a field, new or edited, keeps the draft sound. |
| DeviceTypes.StepKeeps | web/static/device-types.js:1236-1300 | The second step is only entered with a stride that covers every block. |
| DeviceTypes.InvKept | web/static/device-types.js:687-1500 | Every action of the editor keeps the draft sound. |
| DeviceTypes.NewDraftSound | web/static/device-types.js:979-997 | The draft of a new device type is sound, so all of this holds from the start. |
| DeviceTypes.StepOneExactly | web/static/device-types.js:1236-1263 | In a sound draft the checks before the second step come down to a stride that covers every block. |
| EditorRefusals.ClashesExactly | web/static/device-types.js:1471-1487 | Fields of a block clash if and only if they read a bit in common or mix a single bit with half a register. |
| EditorRefusals.BlockRefusedExactly | web/static/device-types.js:1321-1388 | A block is refused if and only if the form is incomplete, the stride does not cover it, or the draft with it would be unsound. |
| EditorRefusals.RemovableExactly | web/static/device-types.js:742-761 | A block can be deleted if and only if the draft without it is sound. |
| EditorRefusals.FieldRefusedExactly | web/static/device-types.js:1390-1500 | A field is refused if and only if the form is incomplete or the draft with it would be unsound. |
| DeviceTypes.FieldsNeverShareABit | web/static/device-types.js:1471-1497 | After any editing no two fields read the same bit of the device, not even through different blocks. |
| DeviceTypes.CheckBlocks | web/static/device-types.js:1022-1047 | The block checks report a fault that is there, and none only if there is none. |
| DeviceTypes.CheckFields | web/static/device-types.js:1073-1126 | The same for the checks of single fields. |
| DeviceTypes.BuildPayload | web/static/device-types.js:1014-1149 | The checks before sending report a fault that is there, and none only if there is none. |
| DeviceTypes.NothingStructural | web/static/device-types.js:1014-1149 | A sound draft on the second step has no fault of blocks, stride, field keys, references, ranges or overlaps. |
| DeviceTypes.SubmitAfter | web/static/device-types.js:1502-1511 | After any editing from a sound definition, on the second step, only form, groups, an empty list or a missing summary field can still be refused; and exactly when it is sent. |
| DeviceTypes.Editor.GenerateBlockKey | web/static/device-types.js:170-175 | The counting loop ends with the lowest unused key. |
| DeviceTypes.Editor.SaveBlock | web/static/device-types.js:1321-1388 | The guarded save does, and refuses, what the quantified block rules say: a block accepted says what the form says, in its place or at the end; the draft stays sound and all else untouched. |
| DeviceTypes.Editor.DeleteBlock | web/static/device-types.js:742-761 | A block goes, and nothing else, exactly if it is not the last one and no field is in it; the draft stays sound. |
| DeviceTypes.Editor.MoveBlock | web/static/device-types.js:708-729 | The block goes one place up or down and its neighbour takes its place, if there is one; all else stays and the draft stays sound. |
| DeviceTypes.Editor.SaveField | web/static/device-types.js:1390-1500 | The guarded save does, and refuses, what the quantified field rules say: a field accepted says what the form says, in its place or at the end; the draft stays sound and all else untouched. |
| DeviceTypes.Editor.ValidateStepOne | web/static/device-types.js:1236-1263 | It accepts exactly basics, stride and blocks that are in order and do not overlap. |
| DeviceTypes.Editor.ShowStep | web/static/device-types.js:1266-1289 | Whoever is on the second step has a stride that covers every block and came there only through a validation that passed; and it does pass exactly when basics are in order and the stride covers every block. |
| Pinyin.SegmentPinyin | web/static/virtual-keyboard-pinyin.js:63-78 | The table gives syllables of one to six letters that spell the query, as few as possible, and is empty for a nonempty query exactly when no split exists. |
| Pinyin.ExtendFrom | web/static/virtual-keyboard-pinyin.js:67-75 | Trying every syllable at one position, longest first, settles the table for that position. |
| Pinyin.Compose | web/static/virtual-keyboard-pinyin.js:84-96 | The beam search, never holding more than eighteen, finds exactly the first eighteen of everything that can be composed; each entry spells all syllables with one of the first three characters of each. |
| Pinyin.EverythingSpells | web/static/virtual-keyboard-pinyin.js:84-96 | The unbounded composition holds exactly the texts that spell the syllables with one of the first three characters of each. |
| Pinyin.CapLosesNothing | web/static/virtual-keyboard-pinyin.js:86-95 | What the cap drops could not have come back among the first eighteen. |
| Pinyin.ComposedCandidates | web/static/virtual-keyboard-pinyin.js:80-98 | Every composed candidate has the whole query as its pinyin, over a shortest split; none are composed only when no shortest split has two to six syllables. |
| Pinyin.Collector.AddCandidate | web/static/virtual-keyboard-pinyin.js:8-29 | The result list keeps one candidate a text, in step with its index, takes an offer exactly when it scores higher, and puts it last. |
| Pinyin.BestOfferWins | web/static/virtual-keyboard-pinyin.js:8-29 | Whatever the order of the offers, a text is listed exactly when one of them matches, with the highest score. |
| Pinyin.KindDecides | web/static/virtual-keyboard-pinyin.js:10-18 | Within a tier the kind of match decides, and the place in the list only between equal kinds. |
| Pinyin.TiersDominateExactly | web/static/virtual-keyboard-pinyin.js:18-20 | A tier always comes before another if and only if it is at least 1500 higher. |
| RegisterMap.OccupiedAddresses | web/static/modbus-server.js:425-434 | Exactly the registers of all mappings but the edited one are taken, each labelled with a mapping that takes it. |
| RegisterMap.RecommendAddress | web/static/modbus-server.js:437-451 | The proposal is the lowest free window of data and quality registers, and there is none only if every window is blocked. |
| RegisterMap.CurrentConflict | web/static/modbus-server.js:454-462 | No conflict is found exactly when the registers are free and apart; a conflict names a register that is taken. |
| RegisterMap.ProposalsFit | web/static/modbus-server.js:437-462 | A proposal is never refused by the guard. |
| RegisterMap.GuardIsExact | web/static/modbus-server.js:454-462 | The guard accepts exactly mappings whose registers are apart from all others and from one another. |
| RegisterMap.MappingPage.Create | web/static/modbus-server.js:544-563 | A new mapping is saved exactly when all registers stay disjoint. |
| RegisterMap.MappingPage.Edit | web/static/modbus-server.js:544-563 | An edited mapping is saved exactly when all registers stay disjoint. |
| RegisterMap.MappingPage.Delete | web/static/modbus-server.js:577-587 | Exactly the mapping deleted is gone, and the registers stay disjoint. |
| RegisterMap.RegistersStayApart | web/static/modbus-server.js:544-587 | Over any run of creating, editing and deleting all data and quality registers stay disjoint. |
| StableKey.ReadsBack | web/static/realtime.js:242-247 | A decoder reads every list of texts back from its joined form, whatever the texts contain. |
| StableKey.KeysAreInjective | web/static/realtime.js:242-247 | Two fallback keys are equal exactly for the same kind and the same parts. |
| StableKey.RowsAreTold | web/static/realtime.js:249-262 | Rows without keys of their own share a key exactly when channel, master and device agree. |
| StableKey.ValuesAreTold | web/static/realtime.js:460-526 | Points share a key exactly when row and point agree, and never with a summary. |
| Polling.StepIsExact | web/static/app-ui.js:38-82 | An event keeps the guarantee exactly when it is no delayed start during a callback. |
| Polling.OneAtATime | web/static/app-ui.js:38-82 | Over all runs without such a start: at most one callback, at most one timer, never both, one of them while running and visible, nothing after disposal. |
| Polling.DelayedStartLeaksATimer | web/static/app-ui.js:62-68 | With such a start a timer is left that stop does not know. |
| Polling.PollingController.Start | web/static/app-ui.js:62-68 | From a controller that keeps the guarantee, a start keeps it exactly if it is no delayed start during a callback; a visible one then has a callback under way or, if delayed, a timer; a disposed one is left alone. |
| Polling.PollingController.Stop | web/static/app-ui.js:70-76 | No timer is left armed, a callback in flight is not interrupted, and the guarantee is kept. |
| Polling.PollingController.VisibilityChange | web/static/app-ui.js:17-23 | A hidden or disposed controller holds no timer; one shown again has a callback in flight; the guarantee is kept. |
| Polling.PollingController.TimerFires | web/static/app-ui.js:38-60 | When the timer goes off the callback takes its place, and no timer is armed. |
| Polling.PollingController.Finish | web/static/app-ui.js:47-60 | When the callback settles, a timer is armed exactly if polling goes on. |
| Polling.PollingController.Dispose | web/static/app-ui.js:78-82 | Nothing is armed any more, for good. |
| ZonedTime.ZonedDateTimeToEpoch | web/static/settings.js:289-310 | The loop applies two corrections to the wall time read as UTC. |
| ZonedTime.TwoCorrectionsSuffice | web/static/settings.js:300-305 | With at most one offset change among the instants visited, a wall time that exists is met exactly, also when it occurs twice. |
| ZonedTime.MissesOnlySkippedTimes | web/static/settings.js:300-305 | The result shows the wall time if and only if it is not among those a forward change skips. |
| ZonedTime.OneCorrectionFails | web/static/settings.js:300-305 | One correction does not reach a wall time after a change that two reach. |

## Left out

- systemd, subprocesses, health probes, disk space, ownership and signatures are outcomes: success, failure or a crash. `install.sh` appears by its contract only.
- A corrupt status file: recovery then writes a default FAILED status; single branch, not part of the protocol here. The message, time and error fields of the status are not modelled either.
- The second write of FAILED after a service restart that failed: it repeats a status already on disk.
- The runner takes the lock without waiting right after it is started and may find it busy; only mutual exclusion is modelled, no liveness of the lock.
- UpdateManager.Manager.RecoverTransaction: has no branch for an unknown state, since the status type has none; that it is unreachable is `NoUnknownState`.
- UpdateManager.Manager.Perform: the effect of an outside operation on the device is the one `Upgrade` gives it; a removal of a partial backup is complete or does not happen.
- Backup.LoadCompleteBackup: a link above a checksummed file and a marker with paths outside the directory are not modelled, because committed markers hold plain paths; directories of a backup are real ones.
- Backup.BackupDirectory.CopyData: the copy follows links, so the data tree it is given is described as it sees it: a link to a directory, the data directory itself included, by the directory it leads to. Loops of links are not modelled.
- Retention.CleanupApplicationUpdateUploads: modification times differ; the filters on name, file type and age before the sort are left out, as are those of the Python pass. Staging of uploads by part is left out.
- Archive.InspectArchive: names are given in canonical parts; names such as "a//b" or "./a" and reading the tar file itself are not modelled.
- Archive.ExtractArchive: the extra checks of the extraction filter can only stop it earlier, and whether a second name for a hard link's target can be made is up to the system.
- ArchiveLinks.ChainsStayInside: where chains of links lead whose targets go up again after going down is not claimed; that is for the extraction filter and the resolve check of `verify_manifest`.
- Navigation.NavigationIsSound: hash-only moves, the skeleton, animation and toast handling are not modelled; the activation function that is also exported is called by nobody.
- PageScope.NothingSurvives: reading of response bodies is reduced to a request being settled.
- DeviceTypes.SubmitAfter: groups, enumerations and rules for invalid values enter as flags; the checks of display groups can still fail.
- Pinyin.BestOfferWins: the final sort and cut of the results, the lexicon and the order of its sections are not modelled.
- RegisterMap.RecommendAddress: the form fields and the wording of messages are not modelled.
- ZonedTime.ZonedDateTimeToEpoch: parsing the text and reading the zone's offset through the formatter are not modelled; the offset is a function of the instant.
- HTTP handlers, sessions, the C++ polling, alarm and Modbus cores, rendering and error texts are left out.
